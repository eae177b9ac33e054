# A verified model of the chat client's delivery core

The repository is a chat client for agents. A supervisor process keeps one IRC connection, appends
every message it hears to a log, and, when a Codex thread is bound to it, delivers the messages meant
for that thread to a local app-server. This project models the parts of that program whose
correctness depends on more than one function or more than one process, and proves what they keep.

**Delivery to a thread.** `Delivery` is a labelled step system: the log, the stored binding, the
binding mutex, the worker pass with its own copy of the binding, a control request in progress, and a
history of what was sent, refused, acknowledged, persisted and flagged. Everything the code does not
decide is in the label: who moves next, what the server says, whether a file operation works, when
the process dies. A section under the mutex is two steps, so anything the mutex does not exclude can
happen inside it. `DeliveryInvariant` and `DeliveryHistory` prove one inductive invariant;
`DeliveryTheorems`, `DeliverySafety` and `DeliveryOnce` read the promises off it. `Supervisors` puts
any number of such systems around the per-thread file locks. `Conversation` is the attempt itself
over numbered frames that the server chooses, and `Handler` has the worker's turn and the control
requests as the methods they are. `Attempts` says what an attempt reports, frame by frame of what the
server answers; `Turns` that a turn delivers, and what a failed attempt leaves; and `Requests` exactly
when a control request replaces, keeps or refuses. `DeliverPath` and `HandlerTheorems` show that each of these,
whatever goes wrong in it, is a run of the step system that leaves exactly its events in the history:
a dispatch for each time the text was written, a refusal where the server refused, an
acknowledgement where there was one, and the saves and flags of the binding file. So a turn taken in
a reachable state ends in a reachable state, and what is proved of runs holds of it.

**The message log.** `MessageLog` has the strict reader, the queue report and the lenient reader over
bytes; `LogFiles` renders a log of entries to bytes and proves that record positions are byte offsets
and that the two readers agree; `Inbox` is polling with a saved cursor, by any number of callers.

**The app-server manager.** `Service` runs any number of ensure calls on one service home step by
step, `ServiceTheorems` proves what they promise, and exactly when a failing `ps` breaks it,
`ServiceCall` is the call itself as a method, with exactly when it gives which reply and as a path of
those steps, and `Endpoints` the strings it accepts.

**Waking the worker.** `Wakeup` is the append-then-signal callback and the one-place channel that
rouses the worker.

**Text.** `SplitUTF8`, `Wire`, `Channels` and `Send` take a text to lines on the wire and read them
back, `Encoding` counts their bytes, and `Hearing` is what the other clients make of them. `Pending` and `Connection` are the request table of one IRC connection and its handler of
server lines. `Watch` is the watcher against the supervisor's connection counter.

Assumptions: appends and the replacement of the binding file are atomic and the log only grows;
binding ids and process identities are never reused; what `ps` says of processes started here is true,
though it may fail to answer at any moment, `kill` works, and no ensure call is killed midway;
decoding undoes encoding and an encoded message is
a non-empty single line; lower-casing a character is idempotent and keeps white space apart from the
rest; and, for the history only, the app-server names a turn only for text it accepted (nothing is
assumed of its refusals and silences).

Where the code does less than its comments or documentation suggest, the model follows the code:

- A session may be started again under another name and keep its binding
  (pkg/services/session.go:25-59). Messages filtered under the old name are not given back even if
  they are meant for the new one: `Renaming.RenamedRun` is such a run, `Renaming.HiddenExactly` and
  `Renaming.RestartHides` say exactly when it happens, and `Renaming.SameName` that it never does while
  the name is kept. The theorems about the cursor say under which name an entry was filtered.
- When `ps` fails to answer, a living server is taken for dead (pkg/services/codex_service.go:431-436).
  `ServiceTheorems.FailureLeavesNoServer` says exactly when a failing call leaves its server behind,
  `ServiceTheorems.OverlookedExactly` when a server is started beside the recorded process, and
  `ServiceTheorems.OneServerExactly` when two servers of our own can come to live at once.
- A poll takes an unreadable cursor for zero, and polls may overlap (pkg/services/message.go:126-143):
  `Inbox.EachMessageOnce` has the exact condition under which every message is read once.
- The start that follows a refused steer does not consult the flag that holds back starts
  (pkg/services/codex_app_client.go:189-219). `ConversationTheorems.HeldBackStartsExactly` says exactly
  which attempts start a turn all the same, `ConversationTheorems.UnguardedStart` shows one, and
  `DeliverySafety.NoBlindStart` carries it to runs.
- A channel name cut to length may end in a hyphen and is then not its own normal form
  (pkg/dal/channel.go:16-22). If the home channel is such a name, typing that name parts it on the
  server while the save that follows fails: `Channels.HomeCanBeParted`.
- A confirmed join is lost when the list holds another spelling of the channel: `Channels.JoinIsLost`.
- A last parameter with a tab and no blank, or one that ends in a line break, does not come back from
  the wire (pkg/dal/irc/message.go:20-72): `Wire.RoundTrip` has the exact condition.
- A join is confirmed by the end of the member list alone (pkg/dal/irc/conn.go:348-354):
  `Pending.JoinedMeansListed` claims no more.
- The worker's branch for "no records, but an advance" can never be taken
  (pkg/services/codex.go:71-78): `MessageLog.NothingReadNothingPassed`.
- Both readers start over when the file is shorter than the cursor. On a log that only grows this
  never happens: `DeliveryTheorems.CursorConservation` keeps the cursor within the log.
- The connection counter starts again with a new supervisor, so the watcher's theorems are about one
  supervisor's life.

## Model

| member | source | states |
|---|---|---|
| DeliveryTheorems.DispatchOrder | pkg/services/codex.go:79-142 | in every run, restarts under other names included, the dispatches of a generation follow log order and repeat only the record just tried; each record is meant for its generation under the name of that moment; and every earlier entry, back to the generation's start, was acknowledged and persisted or filtered under a name it is not meant for |
| DeliveryTheorems.CursorConservation | pkg/services/codex.go:85-132 | in every reachable state the stored cursor lies within the log, and each entry between the generation's start and the cursor is a message that was acknowledged and persisted under it, or filtered under a name it is not meant for |
| DeliveryTheorems.FilteringIsOfTheMoment | pkg/services/codex.go:85-93 | a filtering moves the cursor past one record that is not meant for the generation under the client's present name, and is noted with that name |
| DeliveryTheorems.FilteredUnderAnotherName | pkg/services/session.go:25-59 | whenever a filtering is followed by a restart under a name the record is meant for, that record lies behind the cursor unacknowledged |
| Renaming.HiddenExactly | pkg/services/session.go:25-59 | in every reachable state, each entry behind the cursor that is meant for the generation under the present name was acknowledged and persisted, if and only if nothing that was filtered is meant for it under that name |
| Renaming.RestartHides | pkg/services/session.go:25-59 | whether a restart under a given name hides anything, told from the state before it: if and only if something filtered is meant for that name |
| Renaming.SameName | pkg/services/session.go:25-59 | while every restart keeps the name, nothing is ever hidden |
| Renaming.RenamedRun | pkg/services/session.go:25-59 | a run of seven steps from the start that hides a message: bound, read, filtered, and restarted under the name it is meant for |
| Renaming.MentionsNewName | pkg/services/codex.go:273-293 | a message for which that happens: in a channel, mentioning only the new name |
| DeliveryTheorems.SavedWasAcked | pkg/services/codex.go:116-132 | a persisted delivery immediately follows its acknowledgement, which immediately follows the dispatch the thread accepted |
| DeliveryTheorems.LaterSendIsNotEarlier | pkg/services/codex.go:79-142 | of two dispatches of one generation, the later never names an earlier record |
| DeliveryHistory.StepKeepsInv | pkg/services/codex.go:34-242 | every step keeps the invariant: mutual exclusion, the pass's copy agreeing with the stored binding, a lawful history, and the cursor accounted for |
| DeliveryHistory.RunKeepsInv | pkg/services/codex.go:34-157 | every run keeps the invariant, crashes included |
| DeliveryHistory.AckExitAccounts | pkg/services/codex.go:196-215 | saving an acknowledgement keeps the invariant |
| DeliveryHistory.AckExitRecords | pkg/services/codex.go:196-215 | it moves the cursor past the record, notes the save, and clears the failure and the flag, in the file and in the history alike; the rest of the binding stays |
| DeliveryHistory.FailExitAccounts | pkg/services/codex.go:217-242 | saving a failure keeps the invariant |
| DeliveryHistory.FailExitRecords | pkg/services/codex.go:217-242 | it blocks the binding by that failure and its name, leaves the cursor and the rest, and sets the flag, in the file and in the history alike, exactly for an unclassified steer error |
| DeliveryHistory.BindExitAccounts | pkg/services/session.go:366-395 | a bind keeps the invariant, and the generation it stores has nothing in the history and is not flagged |
| DeliveryInvariant.InspectKeeps | pkg/services/codex_app_client.go:134-170 | deciding on the first look keeps the pass's trail: what it will send is justified by what it has seen |
| DeliveryInvariant.AnswerKeeps | pkg/services/codex_app_client.go:171-228 | every reply leaves the pass in a phase its history justifies |
| DeliverySafety.DispatchIsLive | pkg/services/codex.go:166-177 | text is handed to the thread only while the stored binding is enabled, of the running session, and the pass's own generation, route and cursor |
| DeliverySafety.RetiredIsSilent | pkg/services/codex.go:166-177 | once a generation is not live, no interleaving ever sends for it again |
| DeliverySafety.UnbindRetires | pkg/services/session.go:462-481 | an unbind, or a bind that replaced the binding, leaves the generation it found dead |
| DeliverySafety.StoredFollows | pkg/services/codex.go:196-242 | over a run a generation keeps its route and replay flag, its cursor never goes back, a disabled one stays disabled, and no earlier generation comes back |
| DeliverySafety.SavesTouchOwnGeneration | pkg/services/codex.go:196-242 | a progress or failure save happens only to the pass's own generation while it is enabled, and keeps its route |
| DeliverySafety.StalePassIsTurnedAway | pkg/services/codex.go:196-242 | a pass whose generation is gone ends without changing anything at its next check |
| DeliverySafety.NoBlindStart | pkg/services/codex_app_client.go:159-219 | after a recorded unclassified steer error and until a persisted delivery, the only start is the one right after a steer of the same record refused as "no active turn" |
| DeliverySafety.BindStartsWhereItMeasured | pkg/services/session.go:366-395 | a bind without replay starts at the log length measured before its probe, whatever is appended while the probe runs |
| DeliverySafety.LogIsAppends | pkg/dal/store.go:18-33 | over every run the log holds what it held and what was appended, in order; nothing else touches it |
| DeliveryOnce.ExactlyOnce | pkg/services/codex.go:99-142 | on a run without ambiguous faults no record is accepted twice for a generation, and each entry behind the cursor was either accepted exactly once or filtered under a name it is not meant for, never both |
| DeliveryOnce.UnrecordedStep | pkg/services/codex.go:110-132 | accepted text stays in hand until its cursor is persisted or its generation is over, at every step that is not one of those faults |
| Wakeup.NoLostWakeup | pkg/services/session.go:646-661 | in every interleaving of appenders and worker, a worker left waiting without a token has begun a pass since the last append |
| Supervisors.FreshSystem | pkg/services/codex.go:326-357 | supervisors that start with no binding and no lock held have the invariant of the whole system |
| Supervisors.OneAtATime | pkg/services/codex.go:326-357 | of all supervisors on one endpoint and thread, at most one is between taking the thread lock and learning the fate of its dispatch |
| Supervisors.AttemptsAreHeld | pkg/services/codex.go:99-115 | every step of an attempt, from the check of the binding to the last answer, is made under the thread lock |
| Supervisors.LockIsPerThread | pkg/services/codex.go:322-357 | in every reachable state the lock of a thread is refused exactly while a supervisor is at that very endpoint and thread |
| Supervisors.EachMakesARun | pkg/services/codex.go:99-115 | each supervisor of a system, seen alone, makes a run of the step system |
| Supervisors.WaitingDescends | pkg/services/codex.go:99-115 | whoever waits for the thread lock or the mutex waits for somebody of lower rank |
| Supervisors.NoCircularWait | pkg/services/codex.go:99-115 | no reachable state has a circular wait, nor a chain of more than three |
| Supervisors.MutexIsReleased | pkg/services/codex.go:166-242 | whoever is inside the mutex has a step of its own that leaves it |
| AppClient.JudgeIs | pkg/services/codex_app_client.go:171-232 | a reply counts as delivered exactly if it carries a turn id; only a refused steer is rechecked, and only a steer fails as one |
| AppClient.RaceIs | pkg/services/codex_app_client.go:230-232 | the recognised refusal is code -32600 with the text "no active turn to steer", in any case and with any white space around it, and nothing else |
| AppClient.ErrorStates | pkg/services/codex.go:244-271 | an error of any other call that says the thread is not loaded, in any case, is recorded as such, and else one that says something is closed |
| Attempts.CallAnswers | pkg/services/codex_app_client.go:340-383 | a request is answered by the first frame with its number, past notifications and answers to others: a result by its payload, an error by its code and message under the method of that request |
| Attempts.CallBreaks | pkg/services/codex_app_client.go:340-383 | a request that no readable frame answers fails as a broken connection |
| Attempts.AnsweredOrNot | pkg/services/codex_app_client.go:340-383 | every request is one or the other |
| Attempts.ActiveTurnIs | pkg/services/codex_app_client.go:171-186 | the turn steered is the first in progress |
| Attempts.LookShows | pkg/services/codex_app_client.go:384-395 | a look shows the status of the first answer and the turns of the second, unless the first is about another thread |
| Attempts.AttemptGivesUp | pkg/services/codex_app_client.go:141-186 | a thread that cannot be looked at, is another, is not loaded or has no turn to steer, and an idle one while starts are held back, is reported as just that |
| Attempts.IdleIsStarted | pkg/services/codex_app_client.go:159-170 | an idle thread is started unless starts are held back: the attempt reports the closed gate, the broken write, the turn, or the server's error as one of the start with its code and message |
| Attempts.SteerReports | pkg/services/codex_app_client.go:171-194 | an active thread is steered whether or not starts are held back: the attempt reports the closed gate, the broken write, the turn, or any error other than the recognised one as an error of the steer with its code and message |
| Attempts.RefusedSteerReports | pkg/services/codex_app_client.go:195-228 | after the recognised one a second look that fails, or shows another thread or one that is not idle, is reported as such, and an idle one is started and the start reported |
| Conversation.Rpc.CallDispatched | pkg/services/codex_app_client.go:340-383 | one request takes the next number, is written only if authorized, and is answered by the first frame with its number, passing over all others |
| Conversation.Rpc.Inspect | pkg/services/codex_app_client.go:384-395 | reads the thread, then its turns, and notices a reply about another thread |
| ConversationTheorems.HeldBackStartsExactly | pkg/services/codex_app_client.go:159-219 | while starts are held back an attempt writes a start if and only if its first look shows an active turn, the steer of it is answered "no active turn", the second look shows the thread idle, and the second gate is not closed |
| ConversationTheorems.UnguardedStart | pkg/services/codex_app_client.go:189-219 | a conversation in which that happens |
| ConversationTheorems.ProbeIs | pkg/services/codex_app_client.go:109-132 | the availability probe writes no text, succeeds exactly if the look shows that very thread idle or active, and reports the failure the look came to otherwise |
| Conversation.Rpc.DeliverText | pkg/services/codex_app_client.go:134-228 | the branches of a delivery attempt; what they report is said frame by frame by `Attempts.AttemptGivesUp`, `Attempts.IdleIsStarted`, `Attempts.SteerReports` and `Attempts.RefusedSteerReports` |
| Conversation.Rpc.Start | pkg/services/codex_app_client.go:203-228 | a start is delivered, held by the gate, or retained with its failure |
| ConversationTheorems.CallIs | pkg/services/codex_app_client.go:340-383 | a result really is one of the server's frames carrying this request's number, and a closed gate writes nothing |
| ConversationTheorems.TryIs | pkg/services/codex_app_client.go:171-228 | a dispatch writes once exactly if its gate is not closed, a delivery rests on a reply to that write, and a recheck on the server's refusal of that steer as "no active turn" |
| ConversationTheorems.AgainIs | pkg/services/codex_app_client.go:189-219 | the second look leads to one start exactly if the thread is idle now and the gate is not closed, and to no other write |
| ConversationTheorems.DeliverIs | pkg/services/codex_app_client.go:134-228 | whatever the server sends, an attempt writes text at most twice, and then a steer that the server refused as "no active turn" followed by one start; while starts are held back a start is never its first write |
| DeliverPath.TryIsAPath | pkg/services/codex_app_client.go:171-228 | a dispatch over the wire, unreadable binding and failed write included, is a path of the step system that leaves exactly its events |
| DeliverPath.DeliverIsAPath | pkg/services/codex_app_client.go:134-228 | every conversation is a path of the step system that ends acknowledged or failing for the same reason, leaves exactly its events in the history, and changes nothing else |
| DeliverPath.DeliverTells | pkg/services/codex_app_client.go:134-228 | those events are the story of what was written: one dispatch for each write, of its kind and turn and in order, a refusal only where the server refused, and an acknowledgement exactly if there was one |
| Handler.ControlHandler.SaveCodexProgress | pkg/services/codex.go:196-215 | writes the cursor, and on an acknowledgement clears the failure, exactly if the stored binding is enabled and the caller's own |
| Handler.ControlHandler.SaveCodexDeliveryFailure | pkg/services/codex.go:217-242 | writes the failure under the same condition and leaves the cursor |
| Handler.ControlHandler.CodexBindingCurrent | pkg/services/codex.go:159-164 | true exactly if the pass may still dispatch for the running session |
| HandlerTheorems.AuthorizedWrites | pkg/services/codex.go:166-177 | a send puts the text on the wire exactly if the binding loads and is still enabled, the pass's own and the running session's; a changed binding is reported exactly if it loads and is not |
| Handler.ControlHandler.UnbindCodex | pkg/services/session.go:462-481 | disables the stored binding and changes nothing else in it, if it can be loaded and written |
| Requests.UnbindIs | pkg/services/session.go:462-481 | an unbind succeeds exactly if the binding loads and there is none or it is saved; it disables the binding and keeps the rest |
| HandlerTheorems.UnbindIsTwoSteps | pkg/services/session.go:462-481 | an unbind request is an entering and a leaving step of the step system, with nothing else changed |
| Handler.ControlHandler.BindCodexWithReuse | pkg/services/session.go:331-396 | the stored binding and the response of a bind request, error cases included |
| Requests.AskedAfresh | pkg/services/session.go:332-395 | a request that asks for a new binding replaces what is stored exactly if it is sensible, the cursor can be set, the thread answers or need not, and the binding is complete and saved; what the new binding then holds; and which refusal it gets otherwise |
| Requests.AskedReuse | pkg/services/session.go:341-366 | a proper request to reuse an enabled binding leaves it and is answered by it, by the differences, or by what the probe met |
| Handler.ControlHandler.HandleRecord | pkg/services/codex.go:79-142 | one record of the worker loop: filtered, delivered, or the end of the pass, with cancellation, unreadable binding files and failed writes |
| Handler.ControlHandler.WorkerPass | pkg/services/codex.go:79-142 | the loop over the records leaves the stored binding, cursor and deliveries its specification gives |
| Handler.ControlHandler.WorkerTurn | pkg/services/codex.go:51-142 | one turn, turned away only by an unreadable, disabled or foreign binding or an unreadable log; that it delivers is `Turns.TurnDrains` |
| Turns.TurnDrains | pkg/services/codex.go:50-142 | every turn over an enabled binding of the running session, whatever it says of earlier attempts, ends with the cursor where the log stops and has delivered exactly the messages meant for the generation, once each and in order, if the file operations and attempts of that turn succeed; if anything was delivered no failure is left, and nothing else has changed |
| Turns.TurnStartsOver | pkg/services/codex.go:62-142 | the same of a binding whose cursor is past the end of the log, which counts as zero |
| Turns.IdleTurnDrains | pkg/services/codex.go:50-142 | so an idle thread that takes what it is given gets every message unless starts are held back |
| Turns.TurnFlags | pkg/services/codex.go:116-142 | a turn whose k-th record meets a steer error other than the recognised one has delivered what was meant for the generation before it, stays in front of that record, and stores the error with its code and message and the flag |
| Turns.SteerErrorIsFlagged | pkg/services/codex.go:217-242 | at any record of a pass such an error, if it can be saved, ends the pass, is on record and holds starts back, and the history gets the send and the flag |
| Turns.StartErrorIsRecorded | pkg/services/codex.go:217-242 | a refused start ends the pass, is on record, and holds nothing back |
| Turns.FlaggedExactly | pkg/services/codex.go:217-242 | the flag is raised exactly by a saved steer error other than the recognised one |
| HandlerTheorems.Drain | pkg/services/codex.go:62-142 | without appends, a pass in which everything succeeds ends with the stored cursor at the end of the log or at the first bad line, having delivered exactly the addressed records in order |
| HandlerTheorems.IdleIsSmooth | pkg/services/codex_app_client.go:134-175 | success is possible: an idle thread that answers every request and takes the text makes a delivery succeed |
| HandlerTheorems.PassIsARun | pkg/services/codex.go:79-142 | every pass, whatever goes wrong in it, is a run of the step system with the same stored binding at its end, exactly its events in the history, and everything else as it was |
| HandlerTheorems.PassReports | pkg/services/codex.go:116-132 | what a pass reports as delivered are the messages of its saves, in order |
| HandlerTheorems.TurnIsARun | pkg/services/codex.go:51-142 | every turn of the worker is a run of the step system, and reports exactly the messages of the saves it adds to the history |
| HandlerTheorems.TurnsStayReachable | pkg/services/codex.go:34-157 | a turn taken in a reachable state ends in a reachable state |
| HandlerTheorems.RecordPath | pkg/services/codex.go:79-142 | handling one record is a path of the step system that leaves exactly its events |
| HandlerTheorems.NeverChanged | pkg/services/codex_app_client.go:134-228 | while the binding is current an attempt never reports a changed one |
| HandlerTheorems.BindIsTwoSteps | pkg/services/session.go:331-396 | a bind request is an entering and a leaving step of the step system: nothing changes, or the binding is replaced and its generation begins |
| HandlerTheorems.ReuseNeverWrites | pkg/services/session.go:341-365 | reuse with an enabled binding leaves it as it is: it is returned for the same route only, and a conflict names a difference |
| Subscriptions.NormalizeSubscribedChannels | pkg/services/codex.go:305-320 | the loop with its seen map computes the normal form |
| Subscriptions.NormalizedIs | pkg/services/codex.go:305-320 | a request has a normal form exactly if each channel is acceptable, and then it lists the canonical names without repetition |
| Subscriptions.CanonicalIsIdempotent | pkg/services/codex.go:295-303 | the spelling used for comparison is a fixed point of itself |
| Subscriptions.SubscribedIsMembership | pkg/services/codex.go:295-303 | on a normal list, being subscribed is membership of the canonical name |
| Subscriptions.SameSubscribedIsSetEquality | pkg/services/session.go:419-429 | on normal lists, equal length and one-way inclusion is equality of sets |
| Subscriptions.ConflictNamesDifferences | pkg/services/session.go:398-417 | a conflict lists exactly the settings that differ, and is empty exactly for the same route |
| Subscriptions.ReuseIsSameRoute | pkg/services/session.go:341-365 | reuse is accepted exactly for the same session, endpoint, thread, mention setting and set of channels |
| Routes.RunKeepsNormal | pkg/services/session.go:331-396 | over every run the stored route's channels are a normal list |
| Routes.ReuseInEveryRun | pkg/services/session.go:341-365 | so in every reachable state reuse is granted exactly to a request for the stored route |
| Subscriptions.ReuseAddressesTheSame | pkg/services/codex.go:273-293 | a reused binding delivers exactly the messages the request asked for |
| Subscriptions.AddressedIs | pkg/services/codex.go:273-303 | which messages are meant for a reader: not his own, all direct ones, those to a subscribed channel, and with the mention setting those that mention him in any channel |
| Routes.StoredIsUsable | pkg/services/session.go:332-395 | in every run what is stored names its generation, session and thread, and a local endpoint |
| MessageLog.ReadCompleteMessageRecords | pkg/dal/store.go:70-118 | the scanning loop from the last newline backwards equals the line-by-line reading of the specification |
| MessageLog.ScanIsLines | pkg/dal/store.go:86-117 | the records cover the bytes from the cursor to `next`, one newline-terminated decodable line each, offsets increasing |
| MessageLog.ScanStops | pkg/dal/store.go:86-117 | reading stops at a partial line without error, or in front of a complete line that does not decode with its offset as the error |
| MessageLog.NothingReadNothingPassed | pkg/dal/store.go:70-118 | without records the cursor does not advance |
| MessageLog.ResumableRead | pkg/dal/store.go:70-118 | reading a log and then its extension from the returned cursor is reading the extension once |
| MessageLog.InspectCodexQueue | pkg/services/codex_binding.go:14-41 | the report's counts are those of the strict reading and of the bytes past the cursor, and it is blocked by a failing stat or read or by a bad line, whose offset it gives |
| MessageLog.PendingBytesAdd | pkg/services/codex_binding.go:14-41 | an unblocked queue's pending bytes are its pending records plus the partial line |
| MessageLog.Tail | pkg/dal/tail.go:10-38 | the lenient reader's lines and next offset |
| MessageLog.ReadMessages | pkg/dal/store.go:38-52 | the messages among those lines, in order, undecodable ones left out |
| MessageLog.DecodedAre | pkg/dal/store.go:38-52 | of the lines, exactly those that decode, each once and in order, whatever lies between them |
| MessageLog.SplitIs | pkg/dal/tail.go:23-37 | cutting into lines cuts at every newline and loses nothing else |
| LogFiles.AppendRenders | pkg/dal/store.go:18-33 | an append adds one line at the end and moves nothing |
| LogFiles.MessageFile.AppendMessage | pkg/dal/store.go:18-33 | one write of one line: the file renders the log with the message added, or is as it was |
| LogFiles.ReadIsReadFrom | pkg/dal/store.go:70-118 | from the byte offset of any record the strict reader sees the entries the delivery model reads, at their byte offsets, and stops where it stops |
| LogFiles.NextInBytes | pkg/dal/store.go:70-118 | where a drained cursor stands is, in bytes, the reader's `next` |
| LogFiles.LenientRead | pkg/dal/tail.go:23-37 | on a log the writer wrote, the lenient reader returns every later message and moves to the end |
| LogFiles.ReadersAgree | pkg/dal/store.go:38-118 | on such a log both readers return the same messages and the same next offset from every record |
| Inbox.CursorFile.PollMessages | pkg/services/message.go:120-144 | a poll returns, each once and in order, exactly the messages after the cursor whose nick is not the reader's, or all such on replay or without a readable cursor, and saves the cursor if it can |
| Inbox.EachMessageOnce | pkg/services/message.go:120-144 | however receiving and overlapping polls interleave, the saved polls have at every moment read each message before the cursor exactly once and in order, if and only if each poll is saved while the cursor is the one it began from |
| Inbox.SerialIsOrderly | pkg/services/message.go:120-144 | polls that do not overlap, replay or find the cursor unreadable meet that condition |
| Inbox.ReturnedAreOthers | pkg/services/message.go:133-140 | under one name the saved polls return exactly the messages they have read whose nick is not the reader's, each as often as it was read and in that order |
| Inbox.SaveHandsOut | pkg/services/message.go:133-140 | one save hands out exactly what its poll read that is not its reader's own, after what was handed out before |
| Service.InvStep | pkg/services/codex_service.go:59-217 | every step of any ensure call, and every death of a process, keeps the invariant, unless `ps` fails to answer for a living server of ours that is looked for on record, named or stopped |
| ServiceTheorems.AtMostOneServer | pkg/services/codex_service.go:59-217 | over any interleaving without such a step at most one server these calls started is alive, and with nobody inside it is the recorded one |
| ServiceTheorems.OneServerExactly | pkg/services/codex_service.go:59-217 | all along a run it takes a further such step to come to two living servers, if and only if there has been none so far |
| ServiceTheorems.OneMissingAnswer | pkg/services/codex_service.go:177-181 | a single call on an untouched home after which two living servers are possible: the start time of its server was not learnt |
| ServiceTheorems.SpawnsOnlyAlone | pkg/services/codex_service.go:87-176 | a server is started only under the lock and only when no server started before is alive, nor, if `ps` has always answered for it when it was looked for, the recorded process |
| ServiceTheorems.OverlookedExactly | pkg/services/codex_service.go:103-135 | all along a run nobody prepares to start a server while the recorded process lives, if and only if `ps` has always answered for it when it was looked for |
| ServiceTheorems.FailureLeavesNoServer | pkg/services/codex_service.go:177-217 | all along a run calls that fail after starting a server have it dead before they release the lock, if and only if `ps` has always answered for a living one when it was to be named or stopped |
| ServiceTheorems.SuccessIsRecorded | pkg/services/codex_service.go:195-204 | a call that reports a started server leaves with that server on record |
| ServiceCall.Manager.EnsureCodexAppServer | pkg/services/codex_service.go:59-217 | exactly when a call reports a started server, one that was found, or a failure, from the state before it and what the outside does; what each leaves alive, started and recorded; when a living server is left off the record; and that the call is a path of the step system to that reply |
| ServiceCall.Manager.StartServer | pkg/services/codex_service.go:171-217 | a new server is reported exactly if it is named and gets ready, and is then alive and on record as it was found; otherwise it is alive exactly if it did not die and could not be named or stopped |
| ServiceCall.Manager.AwaitServer | pkg/services/codex_service.go:182-213 | the start-up loop: ready exactly if some turn finds the living server and records it after turns that only go on |
| ServiceCall.Manager.UseConfigured | pkg/services/codex_service.go:60-74 | a configured endpoint is used exactly if it is given alone, is accepted, and answers |
| Endpoints.ValidateLocalEndpoint | pkg/services/codex_service.go:219-231 | the checks of an endpoint, as one predicate |
| Endpoints.AcceptedEndpoints | pkg/services/codex_service.go:219-240 | exactly the accepted endpoints: the scheme and a rooted path under a hundred bytes, without NUL, that is the root or made of segments other than the empty one, `.` and `..`; the check for parent segments turns nothing more away |
| Endpoints.CleanPaths | pkg/services/codex_service.go:224 | cleaning leaves a rooted path alone exactly if it is the root or made of such segments |
| ServiceCall.Manager.StopStartedServer | pkg/services/codex_service.go:443-455 | the server is dead afterwards exactly if it was, or `ps` answers for it and it obeys the first signal or `ps` answers again; nothing else changes |
| SplitUTF8.SplitLine | pkg/services/message.go:18-37 | the loop over the runes computes the greedy chunks |
| SplitUTF8.Split | pkg/services/message.go:16-40 | the loop over the lines computes the messages |
| SplitUTF8.ChunksAreOptimal | pkg/services/message.go:18-37 | for a limit of at least four, chunks are non-empty, within the limit, make up the line, and no other division under the limit has fewer parts |
| SplitUTF8.GreedyStaysAhead | pkg/services/message.go:25-36 | where the loop gives up on a chunk, no division with fitting parts could have gone on |
| SplitUTF8.SplitIs | pkg/services/message.go:16-40 | for every text the messages fit, none is empty, and together they are the non-blank lines |
| SplitUTF8.SplitByLine | pkg/services/message.go:16-40 | lines are cut one by one and blank ones dropped: no message holds parts of two |
| Encoding.PartsInBytes | pkg/services/message.go:16-66 | in UTF-8 every part is at most 400 bytes, no code point is cut, and the bytes of all parts are those of the non-blank lines |
| Encoding.BytesReadBack | pkg/services/message.go:26-30 | what the splitter counts for a code point is the number of its bytes, which read back as it |
| Wire.ParseLine | pkg/dal/irc/message.go:20-54 | parsing of one line, malformed lines included |
| Wire.MalformedExactly | pkg/dal/irc/message.go:20-54 | a line is malformed exactly if, without its line end, it has no command, or is a prefix without one |
| Wire.TrailingVerbatim | pkg/dal/irc/message.go:36-47 | what follows the mark is the last parameter, whatever it holds |
| Wire.FieldsApart | pkg/dal/irc/message.go:36-53 | any white space separates words, and any around them is dropped |
| Wire.FormatLine | pkg/dal/irc/message.go:60-72 | the line the loop builds |
| Wire.FieldsOfWords | pkg/dal/irc/message.go:36-53 | splitting at white space undoes joining words with blanks |
| Wire.RoundTrip | pkg/dal/irc/message.go:20-72 | with or without a prefix, a formatted line parses back to its command in upper case and its parameters if, and for the parameters only if, its last one survives: marked and not ending in a line break, or without white space |
| Wire.TabIsLost | pkg/dal/irc/message.go:60-72 | an input that does not come back: a last parameter with a tab and no blank |
| Wire.RoundTripBare | pkg/dal/irc/message.go:20-72 | a command without parameters always comes back |
| Send.SendText | pkg/services/message.go:42-75 | one line per part in order until one is not accepted; which error is returned when |
| Send.LinesFit | pkg/services/message.go:61-66 | a line to a channel is at most 461 bytes with CR and LF, within the 512 of section 2.3 of RFC 2812 |
| Send.PartsAreFewest | pkg/services/message.go:61 | a text is sent line by line, each in as few messages of at most 400 bytes as there can be |
| Send.LineGoesTo | pkg/services/message.go:47-66 | a line is addressed to the home channel when none is named, else to the normal form of the one named |
| Send.SaidIsRead | pkg/services/message.go:16-75 | for text whose only white space is blanks and newlines, every line parses to a message to the channel, and their texts together are the non-blank lines |
| Hearing.SaidIsHeard | pkg/dal/irc/conn.go:379-392 | what is typed in a channel is heard by the others part by part, as the sender's and in that channel, once the server has passed it on under the sender's prefix |
| Hearing.DirectIsHeard | pkg/dal/irc/conn.go:379-392 | a message to a nick is heard as direct, and its target as the sender |
| Hearing.PingIsAnswered | pkg/dal/irc/conn.go:311-320 | a ping is answered with its own token |
| Hearing.MembershipIs | pkg/dal/irc/conn.go:339-347 | a channel is joined when the server says so under the client's own nick, and by nothing else |
| Hearing.AnswerEnds | pkg/dal/irc/conn.go:309-394 | a line that answers a pending request ends it, with the error the line calls for, and frees its key |
| Hearing.NamesAreHeard | pkg/dal/irc/conn.go:355-366 | a line of member names adds exactly these names to the request for that channel, if one is pending, and ends nothing |
| Channels.NormalFormShape | pkg/dal/channel.go:12-24 | a normal form is `#` and 1 to 47 of `a-z0-9-`, not beginning with a hyphen |
| Channels.SqueezeRun | pkg/dal/channel.go:15 | between allowed characters every run of others becomes one hyphen |
| Channels.SqueezeWoven | pkg/dal/channel.go:15 | however such runs and words of allowed characters alternate |
| Channels.EveryTextIsWoven | pkg/dal/channel.go:15 | and every text is such an alternation |
| Channels.NormalizeWords | pkg/dal/channel.go:12-24 | a name becomes its words joined by single hyphens, without those around them, cut at 47 |
| Channels.LoweredIs | pkg/dal/channel.go:13-14 | case, surrounding white space and one leading `#` make no difference |
| Channels.NothingLeftIsLobby | pkg/dal/channel.go:17-19 | a name with no allowed character other than hyphens is the lobby |
| Channels.FixedPoints | pkg/dal/channel.go:12-24 | the fixed points are exactly those names that do not end in a hyphen either |
| Channels.NormalizeTwice | pkg/dal/channel.go:16-22 | a second application changes the result exactly when the cut left a hyphen at the end, and then gives a fixed point |
| Channels.NotIdempotent | pkg/dal/channel.go:16-22 | names for which it does |
| Channels.ValidateChannels | pkg/dal/channel.go:25-42 | accepts exactly the lists with home first and no two names of one normal form; which error is reported when |
| Channels.Session.JoinChannel | pkg/services/channel.go:15-35 | the stored state and the error of a join |
| Channels.JoinOutcomes | pkg/services/channel.go:15-35 | when a join is recorded, found to be there already, refused, or lost, and what is stored then |
| Channels.Session.PartChannel | pkg/services/channel.go:37-57 | the stored state and the error of a part |
| Channels.PartOutcomes | pkg/services/channel.go:37-57 | when a part takes the channel out of the list, and when it leaves everything as it was |
| Channels.Session.SaveState | pkg/dal/state.go:42-70 | only a valid session that can be written replaces the stored one |
| Channels.CallKeepsGood | pkg/services/channel.go:15-57 | over fixed-point names a call keeps home first and names distinct, never fails validation and never parts home |
| Channels.RunsStayGood | pkg/services/channel.go:15-57 | so does every run of joins and parts, each acting on any earlier state of the file |
| Channels.HomeCanBeParted | pkg/services/channel.go:37-57 | home is parted exactly by a name whose normal form it is while it is not its own, and the save then fails |
| Channels.JoinIsLost | pkg/services/channel.go:15-35 | a confirmed join fails validation exactly when the list holds another spelling of the channel |
| Channels.HyphenatedNames | pkg/services/channel.go:15-57 | inputs for which home is parted and for which a join is lost |
| Pending.StepKeepsInv | pkg/dal/irc/conn.go:260-288 | every step of callers, timeouts and resolutions keeps the invariant of the request table |
| Pending.CompletedAtMostOnce | pkg/dal/irc/conn.go:268-279 | in every reachable state no request has been completed twice, and the map holds only requests nobody has begun to complete |
| Pending.WokenByItsAnswer | pkg/dal/irc/conn.go:268-288 | a woken caller has the error of the only resolution of its request, made for its key before it was registered again |
| Pending.RunIsLater | pkg/dal/irc/conn.go:260-288 | completion, its error and a returned result are never undone |
| Pending.DisplacedNeverWakes | pkg/dal/irc/conn.go:260-288 | a request whose key was registered again before it was resolved can only time out |
| Pending.JoinAnswer | pkg/dal/irc/conn.go:348-376 | a join succeeds on a 366 for its channel and on nothing else, and is refused on 403, 473, 474 and 475 |
| Pending.NamesAnswer | pkg/dal/irc/conn.go:348-353 | listing a channel succeeds on a 366 for it and on nothing else |
| Pending.NamesAreCollected | pkg/dal/irc/conn.go:355-366 | a request holds exactly the names collected for it, in order, and none of another request of the same key |
| Pending.DmAnswer | pkg/dal/irc/conn.go:239-253 | a direct message is refused exactly on a 401 for its target |
| Pending.RegisterAnswer | pkg/dal/irc/conn.go:321-338 | registration succeeds on a 001 and on nothing else, and fails as in use on a 433 and as unusable on a 432 |
| Pending.RepliesResolve | pkg/dal/irc/conn.go:321-378 | and each of these lines does call for its answer |
| Pending.JoinedMeansListed | pkg/dal/irc/conn.go:189-199 | a join that returned success saw a 366 for its channel handled after it registered and before the key was registered again |
| Connection.Conn.RegisterPending | pkg/dal/irc/conn.go:260-266 | is the register step |
| Connection.Conn.ResolvePending | pkg/dal/irc/conn.go:268-279 | is the claim, write and close steps, and takes the key out of the map |
| Connection.Conn.Wait | pkg/dal/irc/conn.go:281-288 | returns the request's error once done, or a timeout |
| Connection.Conn.GiveUpOnDm | pkg/dal/irc/conn.go:249-252 | an expired direct message resolves its key |
| Connection.Conn.Handle | pkg/dal/irc/conn.go:309-394 | what a server line resolves, answers, passes on and changes |
| Connection.HandleIsAPath | pkg/dal/irc/conn.go:309-394 | handling a line, member names included, is a path of the request table's steps |
| Connection.NickOf | pkg/dal/irc/message.go:76-82 | the part of a prefix before the first exclamation mark |
| Watch.Run | pkg/services/message.go:186-208 | the notices the loop emits |
| Watch.NoticesAreLocal | pkg/services/message.go:198-208 | a notice depends on a sample and the one before it only |
| Watch.BetweenLiveSamples | pkg/services/message.go:198-208 | between one live sample and the next: lost and restored if a gap was seen, restored if only the counter changed, nothing otherwise |
| Watch.LossesAreSeparated | pkg/services/message.go:198-208 | two lost notices always have a restored one between them |
| Watch.ReconnectIsTold | pkg/services/session.go:272-280 | in every supervisor life, two successive live answers give exactly one notice exactly if a connection was established between their readings |
| Watch.NoReconnectIsMissed | pkg/services/session.go:272-287 | if no restored notice falls between two live answers, no connection was established between them |
| Watch.Transport.SetConnection | pkg/services/session.go:272-280 | a connection clears the failure and counts; losing it does neither |
| Watch.Transport.SetFailed | pkg/services/session.go:282-287 | a failure drops the connection and leaves the counter |

## Left out

- Sockets, websocket framing, JSON text, process spawning and file modes: environment steps or parameters.
- Clocks, deadlines, back-off and debounce: a timeout may happen at any moment.
- Starting, stopping and recovering a session, takeover, fleet listing and garbage collection: mostly operating-system calls.
- How long the worker takes to wake up: in the delivery model it may run at any moment, and `Wakeup` shows only that no wake-up is lost.
- `keepForCompletion` and the RPC trace: they follow a turn after its delivery has been persisted.
- Formatting of a delivered event and of notices, and the mention search and nick comparison: predicates of the message here.
- The bind-time cursor and the worker's cursor are record positions in the delivery model; `LogFiles.ReadIsReadFrom` turns them into byte offsets.
- File system checks around the service home, socket normalisation and the CLI version: one step that may fail.
- ServiceCall.Manager.EnsureCodexAppServer: one uninterrupted call, in which only the server it started may die; deaths of other processes and interleaved calls are in the step system.
- Handler.ControlHandler.WorkerPass: one uninterrupted pass, so the binding cannot change between its current check and its sends; concurrent unbinds and binds are in the step system, of which every pass is a run.
- Connection.Conn.Handle: finding a request for member names and appending to it are one step in the method; the request table allows the append to come later.
- Channels.Session.JoinChannel: a membership is its name; kind and time of joining are not kept, and recovering a session before the call is part of whether it can be loaded.
- Unicode beyond single characters: case mapping is per character, and the fixed English phrases the client recognises are compared in ASCII lower case.
- Sessions of the watcher across supervisors, and the messages it prints between notices.
