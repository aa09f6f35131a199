# procmux in Dafny

procmux starts named child processes, relays their output over one Unix socket as JSON lines, and
buffers it while no client is subscribed. It exists twice, in Rust and in Python, each with a server and
a client. This project models the four programs and proves what they guarantee over all
interleavings, and exactly where a guarantee stops.

The reference specification is small (`RelayLog.dfy`): per process an append-only log and a cursor that
only moves forward. Each message before the cursor was accepted by one connection or lost; those after
it are buffered while the process is in the server's table, and forgotten when it leaves it. Both servers
are proved to refine it, and when they lose or forget is characterised exactly.

How the files fit together:

- `Protocol`, `Sequences`, `RelayLog`: message types, folding, the reference log.
- `StreamRelay`: the loops that read a child's pipes, in both languages, and when they agree.
- Rust server: `RustServer` says what each handler does as a function from state to state and recorded
  events; `RustLiveServer` is the server as it is written, objects changed in place, each method
  proved to have that effect. `RustWorld` adds the relay tasks, the relay queue, the client's lines and
  the environment; a run is any sequence of its steps. `RustRecord`, `RustMoves`, `RustHandlers` and
  `RustRuns` carry the invariant through every step, `RustDepartures` that of entries that leave the
  table; `RustTheorems`, `RustTruth`, `RustStreams`, `RustIsolation`, `RustIdle`, `RustReplay`, `RustKill`,
  `RustExits`, `RustAnswers` state what follows; `RustSteps`, `RustReaps`, `RustTasks` and `RustResults` say exactly
  what a step does to each entry, message, child and task and what is answered, from the state before and the input alone;
  `RustWitnesses` holds short runs that show where more would be false.
- Python server: `PyServer` has one step for each stretch of a coroutine between two waits;
  `PyLiveServer` is the same in place. `PyRuns` holds the invariant, `PyTheorems`, `PyReplay`, `PyExits`,
  `PyDepartures` and `PyRecipients` the results; `PySteps`, `PyTasks`, `PyKills`, `PyAnswers` and `PyRequests` say exactly what
  a step does to each process, task and handler and what is answered; `PyWitnesses` holds the counterexamples.
- Clients: `Demux` and `Callers` are the two halves of a connection, shared by both languages;
  `RustLiveClient` and `PyLiveClient` are the connection objects, built on `ClientQueues`; `PyClient`
  says in what the Python client differs. `EndToEnd` joins Rust server and clients.

Run `dafny verify dfyconfig.toml` to check everything.

## Modelling choices

- A handler of the Rust server is one step. It may wait for a child or a pipe, but meanwhile other
  tasks only append to queues or stop writing, so nothing that it reads changes under it.
- The Rust writer task may stop at any time and only a send notices. How many more sends its channel
  accepts is chosen at connect time (`Channel.life`); since closing is permanent this leaves out no run.
- `abort` in the Rust server is a request: a relay task told to stop may read and send until it next
  suspends (`RustWorld.Phase`).
- A panic of the Rust main task is the mode `Crashed`: a spawn without arguments
  (rs/src/server.rs:352) or an invalid line whose byte 200 is inside a character
  (rs/src/server.rs:227). Python answers such a spawn with an error and survives such a line.
- Bodies under the Python client lock await nothing, so the lock is never contended and each is
  part of one step. `drain` may succeed or fail later; a message counts as delivered once it is handed
  to `writer.write`.
- Steps of the Python model may follow one another in orders that asyncio excludes, such as a line read after
  a drain of the same connection has failed: what is proved covers more schedules than can occur, and the
  runs of `PyWitnesses` use only ones that can.
- Spawning, signals, waits and clocks answer through parameters: a process starts or not, its group is
  found or not, it is reaped in time or not, with a code or without.
- Trimming and JSON parsing are an arbitrary oracle.

## Where the documentation promises more than the code does

- The repository's README.md:20 says that output is buffered when the client disconnects. A Rust subscribe on a channel that has
  closed unnoticed loses the drained buffer (`SubscribeCanLose`, exactly when: `LossExactly`). A
  Python subscribe that is read after its client was replaced, when the newer client has gone too, finds no
  writer: it drops the buffer and leaves the process subscribed, and what is emitted then is dropped as
  well (`SubscribeCanDrop`, exactly when: `NothingElseMissing`).
- Buffered output, an exit nobody was told of included, does not outlive its process's place in the table. In
  Rust a kill forgets it, and so does a spawn under the name of an exited process even when that spawn fails
  (rs/src/server.rs:348-349, 432; `RespawnForgets`, exactly when: `LossExactly`, what: `LogRefinement`). In
  Python the process is taken out of the table in the same cases (py/procmux/server.py:239, 276) and also
  when a spawn that was under way ends (`TableExactly`); what it has buffered is then written to no one ever
  after (`PendingIsStranded`).
- The comment at py/procmux/server.py:157 says one client at a time. A newer connection takes over while the
  older handlers still run. A subscribe that a replaced client had sent puts the replay and all later output
  on the newer connection (`ReplayCanStray`), and a killed process that had already exited goes on writing
  to clients that never asked (`StrayOutput`). On whose request output goes to a connection is told exactly
  by the last step that touched the process's flag since the connection was accepted (`SubscribedExactly`,
  for every message written: `WrittenOnRequest`, for every message emitted: `EmittedOnRequest`); a client is
  in line only for what it asked for itself exactly when no subscribed process was out of the table at its
  accept and no replaced client's subscribe has been read since (`OwnOutputExactly`). An answer can reach the newer
  client (`AnswerCanStray`): it reaches the client that asked exactly when there is a writer and no newer
  connection (`AnswerReachesExactly`).
- The branch at rs/src/server.rs:160-164 for an old client never runs (`SubscriptionInvariant`).
- Relay messages carry a name only, so a message queued before a kill is applied to the next process
  of that name (`ForeignMessageHappens`; in exactly which steps: `ForeignExactly`; which messages it can be:
  `IncarnationIsolation`).
- `exited` does not say that the child is gone. A child can close its stdout and live on (`ExitedIsNotGone`);
  the exit a killed process had left on the queue marks its successor exited, whose child and
  stdout are untouched (`SuccessorMarkedExited`); a shutdown may see a child end in neither wait. These are
  all the ways (`UnreapedExactly`), and only a later exit message under the name reaps such a child
  (`UnreapedUntil`).
- The repository's README.md:5 says both implementations have the same features. Closing a client puts the lost-connection
  item into its queues in Python (`SentinelOnceAndLast`). In Rust `close` drops the connection and stops its
  demultiplexer, so every receiver sees its channel end, but without that item, which only the end
  of the stream sends (`SentinelSent`). The stdout relays, though written differently, do agree on every
  input (`RelaysAgreeOnJson`).

## Model

| member | source | states |
|---|---|---|
| RelayLog.MarksAccount | rs/src/server.rs:298-314 | whatever a server did to one process's output, if it is a run of the reference log then the accepted messages (over all connections, and per connection), the lost ones and the appended ones are the matching parts of the log in log order |
| RelayLog.GapFree | rs/src/server.rs:298-314 | with nothing lost, accepted followed by pending is exactly what was appended: no gap, duplicate or reordering |
| RustTheorems.LogRefinement | rs/src/server.rs:205-219 | in every run and for every entry ever spawned, its record is a run of the reference log: accepted or lost up to the cursor in log order; from the cursor on the log is the buffer of an entry in the table, and for one that has left it exactly what was forgotten then, once; across subscribes, kills, respawns, disconnects and closed channels |
| RustTheorems.NoLossNoGap | rs/src/server.rs:298-314 | an entry that lost nothing: messages accepted over all connections followed by the buffer are all it was relayed since its spawn |
| RustTheorems.NoLossNoGapGone | rs/src/server.rs:426-434 | the same for an entry that has left the table, with what was forgotten at its removal in place of the buffer |
| RustTheorems.LossExactly | rs/src/server.rs:333-493 | a step loses messages on a closed channel if and only if it is a subscribe to a present name whose channel accepts fewer messages than are buffered; it takes unread messages out of reach if and only if it is a kill of a present name, or a spawn with arguments under the name of an exited process, whose buffer is not empty |
| RustTheorems.ReplayExact | rs/src/server.rs:482-485 | a replay is accepted in order up to the moment the channel closes, and all the rest is lost |
| RustTheorems.SubscriptionInvariant | rs/src/server.rs:121-221 | in every reachable state a subscribed entry has an empty buffer and a client channel exists; outside `handle_client` nothing is subscribed and there is no channel |
| RustTheorems.RunningIsUnreaped | rs/src/server.rs:337-349 | a running entry's child has a pid and was never reaped, so the branches for a missing pid are dead |
| RustTheorems.StatusOnlyFalls | rs/src/server.rs:259-284 | while an entry keeps its child its status never returns from exited to running, whatever the step |
| RustTheorems.TruthfulExitCodes | rs/src/server.rs:259-294 | every exit code logged for an entry, or that a listing or subscribe result would show, is the code with which that entry's child was reaped, the only time it was |
| RustTruth.TruthfulOnTheWire | rs/src/server.rs:463-525 | in every run every exit code sent is true: the code of each exit message put on a channel, and each code in an answer to a subscribe or in a row of a listing, is that of the one reap of the entry's child, the entry being the one that held the name when the answer was given, told from the record |
| RustStreams.StreamShape | rs/src/server.rs:670-762 | of its own child's stdout an entry logs a prefix of one report per nonblank line, in line order, with at most one exit, only after a normal end, after everything from stdout; likewise for stderr |
| RustIsolation.IncarnationIsolation | rs/src/server.rs:238-314 | a logged message comes from the entry's own child, or from an older child of the same name whose message was queued or whose relay task was still going when the entry was spawned |
| RustIsolation.CleanSpawnIsolates | rs/src/server.rs:333-434 | with nothing of that name in flight at the spawn, every message logged is the entry's own |
| RustIsolation.ForeignExactly | rs/src/server.rs:238-314 | a step logs a message for the entry of another child than the one it came from if and only if the main task takes a relay message whose name is held by another child by then |
| RustIdle.IdleMeansAnswered | rs/src/server.rs:46-48 | in every run a busy entry was given work after its last response or spawn; when clock readings are strictly increasing this is an equivalence |
| RustReplay.ReplayFraming | rs/src/server.rs:463-493 | whatever its channel does, a subscribe puts the log from the cursor on, all of that name, contiguously and immediately before its result, which counts them: accepted as far as the channel goes, then lost, the result accepted exactly if there was room for everything; the cursor moves to the end of the log |
| RustReplay.LogsOnlyGrow | rs/src/server.rs:298-314 | as any run goes on, logs and fates only grow at the end, so what leaves later stands later in the log |
| RustReplay.ReplayedMatchesListing | rs/src/server.rs:504-525 | the `replayed` in a subscribe's answer equals the `buffered_msgs` in an earlier listing's answer when no relay for the name, spawn, kill or subscribe of it came in between |
| RustKill.KillSparesOthers | rs/src/server.rs:426-434 | in every run a kill removes exactly that name and forgets exactly its buffer: every other entry is the same, no message of any entry ever spawned is accepted or lost, nothing else is forgotten, the relay queue stays, no other child's relay tasks are told to stop |
| RustKill.KillStopsTasks | rs/src/server.rs:601-607 | in every run a kill of a running process tells both relay tasks of its child to stop |
| RustKill.ShutdownLeaves | rs/src/server.rs:143-157 | after a shutdown in any reachable state a running process whose group was found is exited with the code of the wait that returned, or without one; all others are as they were; still running if and only if it was and its lookup failed |
| RustKill.ShutdownEndsAll | rs/src/server.rs:143-157 | when every lookup succeeds nothing is left running |
| RustExits.UnreapedExactly | rs/src/server.rs:259-284 | in every run, after any step, a process that was running and keeps its entry is exited without having been reaped if and only if an exit message under its name was taken, its own or a predecessor's, and the child did not end within the wait, or a shutdown found its group and saw the child end in neither wait |
| RustExits.UnreapedUntil | rs/src/server.rs:259-284 | however the run goes on, such a process stays exited while it has its entry, and is reaped if and only if a later exit message under its name is taken and the child ends within the wait |
| RustAnswers.AnswersInOrder | rs/src/server.rs:194-221 | on every connection the accepted results answer the first command lines one by one, in line order; once the connection is over every command line read from it was answered |
| RustSteps.EntryExactly | rs/src/server.rs:238-314 | in every run and for every step, an entry that keeps its child has afterwards exactly what the state before and the input dictate: status, reap, code, buffer, flag and clocks; a shutdown touches only what is known of the child |
| RustSteps.DeliveredExactly | rs/src/server.rs:298-314 | in the step that takes a relay message for a name in the table, the message goes to the current connection, once, if and only if the entry was subscribed and the channel open, and the entry stays subscribed with an empty buffer; on a closed channel the entry ends unsubscribed with that message as its buffer, and an unsubscribed one's buffer grows by it; an exit is told with the code of the child's one reap, if it was reaped by then, and with none otherwise |
| RustSteps.DiscardedExactly | rs/src/server.rs:238-257 | a relay message for a name not in the table changes nothing |
| RustSteps.FlagsExactly | rs/src/server.rs:159-211 | in every run an entry that keeps its child is subscribed after a step exactly when the step subscribed its name, or it was subscribed before and the step was no unsubscribe of its name, no accept, no disconnect and no relay for it on a closed channel |
| RustSteps.StdinExactly | rs/src/server.rs:536-563 | a step writes to a child's stdin exactly when it takes a stdin line whose name is held by that child's running entry and the pipe accepts it; what is written, once, is what the line carries |
| RustSteps.ClocksExactly | rs/src/server.rs:536-563 | the stdin clock of an entry moves exactly when it is written to, its stdout clock exactly when a line of stdout is taken for it, each to the clock reading; no other entry's moves |
| RustSteps.CodesExactly | rs/src/server.rs:259-294 | the code of every entry in the table is that of its child's one reap: none before the reap |
| RustSteps.TableExactly | rs/src/server.rs:333-434 | a name leaves the table exactly by a kill of it or a spawn over its exited process and enters exactly by a spawn that starts, as a running, unsubscribed entry with that child and pid and an empty buffer |
| RustReaps.ReapedExactly | rs/src/server.rs:567-608 | a step reaps a child with a status exactly when it waits for that child, not reaped before, and the wait returns that status: on an exit message under its name, in a kill while it runs, or in a shutdown |
| RustTasks.TasksExactly | rs/src/server.rs:426-434 | a relay task is told to stop exactly by a kill of its child's running process, on command or in a shutdown; it stops when it was told to or its pipe has ended, and no other step touches it |
| RustStreams.StreamsExactly | rs/src/server.rs:670-762 | what a relay task reports of the lines it read is, in order, what the main task has taken of it followed by what is queued; an entry in the table has logged all that was taken of its own child |
| RustResults.AnsweredExactly | rs/src/server.rs:318-525 | in every run the last thing a command records is its answer, to the current connection, accepted if there is room, and it is right: a spawn tells the process under the name afterwards or the error, an interrupt succeeds if and only if the name is held by a running process and lookup and signal succeed, a subscribe and each row of a listing tell the table and the code of the child's one reap |
| RustResults.StatusExactly | rs/src/server.rs:259-284 | until a shutdown an entry in the table is marked exited exactly when an exit was logged for it |
| RustWitnesses.ExitedIsNotGone | rs/src/server.rs:266-281 | a run that ends with a process marked exited whose child was never reaped |
| RustWitnesses.SuccessorMarkedExited | rs/src/server.rs:259-284 | a run in which the exit queued by a killed process marks its successor exited, unreaped and with its stdout open |
| RustWitnesses.SubscribeCanLose | rs/src/server.rs:473-485 | a run in which a subscribe on a closed channel loses the buffer |
| RustWitnesses.RespawnForgets | rs/src/server.rs:348-349 | a run in which a respawn forgets an exit that no client was told of |
| RustWitnesses.ForeignMessageHappens | rs/src/server.rs:241-261 | a run in which a line of a killed child is logged for its successor |
| StreamRelay.StdoutShape | rs/src/server.rs:676-735 | for all inputs: payloads are objects, an exit comes at most once, last, and exactly after a normal end |
| StreamRelay.RustRelayStdout | rs/src/server.rs:670-736 | the loop sends one report per nonblank line, then an exit after end of file and only then |
| StreamRelay.RustRelayStderr | rs/src/server.rs:739-762 | the loop sends one text message per nonblank line |
| StreamRelay.PyRelayStdout | py/procmux/server.py:385-429 | the loop reports each line, parsing it before looking whether it is blank, and the exit after end of file |
| StreamRelay.RelaysAgree | py/procmux/server.py:396-410 | for an arbitrary parser both loops report the same for an input if and only if it rejects the empty text or no line is blank |
| StreamRelay.RelaysAgreeOnJson | py/procmux/server.py:396-410 | as no JSON parser accepts the empty text, both loops report the same for every input |
| RustLiveServer.ManagedProcess.TryWait | rs/src/server.rs:264-276 | a bounded wait returns an earlier exit status again, or the new one, and remembers it |
| RustLiveServer.ManagedProcess.Kill | rs/src/server.rs:567-608 | in place, what the specification of killing says, whose meaning over runs is `RustKill.ShutdownLeaves` and `RustKill.KillStopsTasks` |
| RustLiveServer.ProcmuxServer.SendToClient | rs/src/server.rs:616-628 | reports whether the channel took the payload, and uses up one send of its life |
| RustLiveServer.ProcmuxServer.SendResult | rs/src/server.rs:610-612 | records the answer with whether the channel accepted it |
| RustLiveServer.ProcmuxServer.Relay | rs/src/server.rs:302-310 | sends, or unsubscribes the process and keeps the message when the send fails |
| RustLiveServer.ProcmuxServer.RelayOrBuffer | rs/src/server.rs:298-314 | discards for an unknown name, relays for a subscribed process, buffers otherwise |
| RustLiveServer.ProcmuxServer.Settle | rs/src/server.rs:259-284 | the process becomes exited with the code that came along or that waiting found |
| RustLiveServer.ProcmuxServer.HandleRelay | rs/src/server.rs:238-296 | one relay message, in place, has exactly the specified effect on table, channel and record |
| RustLiveServer.ProcmuxServer.CmdSpawn | rs/src/server.rs:333-424 | answers for a running name, else replaces the entry by a fresh one or reports the error, with the old entry gone |
| RustLiveServer.ProcmuxServer.KillProcess | rs/src/server.rs:567-608 | kills the entry under a name in place and records reaps and aborts |
| RustLiveServer.ProcmuxServer.CmdKill | rs/src/server.rs:426-434 | kills, removes and answers, or answers not found |
| RustLiveServer.ProcmuxServer.CmdInterrupt | rs/src/server.rs:436-461 | answers by case: not running, no pid, lookup or signal error, or ok; changes no process |
| RustLiveServer.ProcmuxServer.Drain | rs/src/server.rs:469-480 | empties the buffer, subscribes, and takes the result's fields before anything is sent |
| RustLiveServer.ProcmuxServer.Replay | rs/src/server.rs:482-485 | the loop sends the drained messages in order and ignores failures, which are recorded as losses |
| RustLiveServer.ProcmuxServer.CmdSubscribe | rs/src/server.rs:463-493 | drain, replay, result, in that order, or not found |
| RustLiveServer.ProcmuxServer.CmdUnsubscribe | rs/src/server.rs:495-502 | clears the flag and answers, or not found |
| RustLiveServer.ProcmuxServer.CmdList | rs/src/server.rs:504-525 | the loop over the table answers with one row for every process and no other |
| RustLiveServer.ProcmuxServer.HandleCommand | rs/src/server.rs:318-331 | dispatches by verb; unknown verbs are answered with an error |
| RustLiveServer.ProcmuxServer.HandleStdin | rs/src/server.rs:536-563 | a successful write hands a running process the data and moves its stdin timestamp; anything else changes nothing |
| RustLiveServer.ProcmuxServer.HandleClientLine | rs/src/server.rs:223-236 | one line of the client, in place; lines that do not parse change nothing |
| RustLiveServer.ProcmuxServer.ClearSubscriptions | rs/src/server.rs:209-211 | the loop clears the flag of every process in the table and nothing else |
| RustLiveServer.ProcmuxServer.Connect | rs/src/server.rs:159-173 | drops the old channel, unsubscribes everything, installs the new channel |
| RustLiveServer.ProcmuxServer.Disconnect | rs/src/server.rs:207-213 | no channel, nothing subscribed, buffers untouched |
| RustLiveServer.ProcmuxServer.Shutdown | rs/src/server.rs:143-157 | kills the names one after the other and drops the channel |
| PyTheorems.NothingElseMissing | py/procmux/server.py:290-383 | for every process ever created and every schedule: subscribed implies an empty buffer, the log is the emission order, each message was written, went missing or is buffered in log order, and the missing ones are exactly those emitted while subscribed with no writer or drained by a subscribe with no writer |
| PyTheorems.NoneMissingNoGap | py/procmux/server.py:376-383 | with none missing, written followed by buffered is the emission order |
| PyTheorems.StepAccounts | py/procmux/server.py:376-383 | each step from any state emits and loses exactly the messages told from what the relay tasks read and from the flag and writer at that moment |
| PyTheorems.ConnectionGapFree | py/procmux/server.py:483-501 | what one connection was handed of a process is one unbroken stretch of its log, whatever was lost around it |
| PyTheorems.NewestWriter | py/procmux/server.py:156-199 | in every run the client writer is none or that of the newest connection |
| PyTheorems.FlagsExactly | py/procmux/server.py:156-199 | in every step a flag is set only by a subscribe and reset only by an unsubscribe, by a takeover or by the end of the current connection; the writer changes only in the last two and when the shutdown is over |
| PyTheorems.SupersededIsHarmless | py/procmux/server.py:193-198 | the end of a superseded connection, its handler leaving or a failed drain of its writer in a subscribe or a send, changes neither the writer nor any flag |
| PyReplay.ReplayIsPending | py/procmux/server.py:299-308 | a subscribe with a writer writes exactly the log from the cursor on as one block in one step |
| PyReplay.ReplayedWereWritten | py/procmux/server.py:290-331 | a client is told `replayed: k` for a name only by a handler that has been waiting since a definite subscribe of its own client for that name: that step wrote k messages of the process it found as one block, to the connection answered now or one it replaced; the status is that of the process by now |
| PyExits.ExitIsFinal | py/procmux/server.py:385-429 | a process reports at most one exit, after everything from its stdout; only stderr follows |
| PyDepartures.TableExactly | py/procmux/server.py:224-277 | in every run a process leaves the table exactly by a spawn over it once exited, by a kill of its name, at once or when the wait for whichever child is over, or by the end of a spawn under way for its name; none comes back and only a new one enters |
| PyDepartures.PendingIsStranded | py/procmux/server.py:239-276 | what a process has buffered when it is out of the table is never written or dropped, however the run goes on: it stays where no subscribe finds it and later output joins it |
| PyRecipients.SubscribedExactly | py/procmux/server.py:156-199 | in every run, since a connection was accepted, a process is subscribed exactly when somebody asked: the last step that touched its flag was a subscribe of that connection's client or of one it replaced, or there was none and the process was subscribed out of the table at the accept |
| PyRecipients.WrittenOnRequest | py/procmux/server.py:376-383 | every message written, by a relay or a replay, goes to the current connection and was asked for in one of those ways |
| PyRecipients.EmittedOnRequest | py/procmux/server.py:376-383 | a message emitted while a connection is current is written to it at once if and only if somebody asked |
| PyRecipients.OwnOutputExactly | py/procmux/server.py:156-199 | from its accept on a connection is in line for output its own client asked for and no other if and only if no process was subscribed out of the table at the accept and no replaced client's subscribe has been read since |
| PyRecipients.AnswerReachesExactly | py/procmux/server.py:483-505 | in every run a handler's answer reaches its own client if and only if there is a writer and no newer connection, the newest one's client instead if there is a writer and a newer connection, and nobody exactly when there is no writer |
| PySteps.ProcessExactly | py/procmux/server.py:448-481 | in every step a process becomes exited, with the return code of that moment, exactly when a kill of it is completed (at once, after the wait, in a shutdown) or its stdout task has waited for the child; its relay tasks are cancelled exactly by a completed kill; its clocks move exactly when its pipe has drained and when a line of JSON is taken; name and pid stay |
| PySteps.NewcomersExactly | py/procmux/server.py:262-268 | a process is added exactly when the child a spawn waited for has started: running, with that pid, unsubscribed, nothing buffered, both relay tasks listening |
| PyTasks.TasksExactly | py/procmux/server.py:385-446 | where each relay task stands after any step, told from its read, the flag, the writer and the cancellation |
| PyTasks.StdoutExactly | py/procmux/server.py:385-429 | in every run what the stdout task of a process emits is what the loop over its stdout reports of the lines read, in order, and last its exit once reported, which needs a normal end; a task not cancelled reads on while lines come and waits for the child exactly when the stream has ended normally and the exit is still due |
| PyTasks.StderrExactly | py/procmux/server.py:431-446 | likewise for stderr |
| PyKills.CodesExactly | py/procmux/server.py:412-421 | in every run a process is marked exited exactly when a kill of it was completed or its exit reported, its exit code is the return code of the last such step, and its tasks are cancelled exactly when a kill of it was completed |
| PyKills.KilledIsSilent | py/procmux/server.py:474-481 | once a kill of a process is completed it is exited with that return code, and in no continuation does it emit another message: its log is what it was |
| PyKills.FoundExited | py/procmux/server.py:456-458 | a kill that finds the process exited takes it out of the table and leaves it as it is, relay tasks included |
| PyKills.ShutdownEndsAll | py/procmux/server.py:126-133 | in every run a finished shutdown leaves every process that was in the table when it began exited |
| PyKills.ShutdownSparesOthers | py/procmux/server.py:126-130 | and a shutdown kills no process that was not in the table when it began |
| PyAnswers.HandlersExactly | py/procmux/server.py:155-222 | in every run a handler waits for exactly what its line calls for, a child starting or ending, a drain, a pipe, and goes on when that is over; a new one first waits for the connection it replaces |
| PyAnswers.AnsweredExactly | py/procmux/server.py:224-357 | in every run a step records an answer exactly when it reads a command that need not wait or ends the wait of one; it is one answer, to the current writer if any, and it is right: a spawn tells the pid of the process under the name afterwards, an interrupt succeeds if and only if it reached a running process, a subscribe and each row of a listing tell the table and the exit code learned in the run |
| PyAnswers.StdinExactly | py/procmux/server.py:360-372 | a step writes to the stdin of a process exactly when it reads a stdin line whose name a running process has; what is written, to it and once, is what the line carries |
| PyRequests.AnswerFollowsRequest | py/procmux/server.py:203-222 | an answer given after a wait belongs to a definite command line of the handler's own client, with nothing read since |
| PyRequests.OneAnswerEach | py/procmux/server.py:203-222 | in every run each command a handler has read was answered once, was dropped because the drain of its replay failed or the handler left, or is the one it waits with |
| PyWitnesses.SubscribeCanDrop | py/procmux/server.py:301-308 | a run in which a subscribe with no writer, its client replaced and the newer client gone, drops the buffer and the process stays subscribed after every handler has left |
| PyWitnesses.AnswerCanStray | py/procmux/server.py:483-505 | a run in which the answer to a subscribe goes to a newer client that was written none of the replay |
| PyWitnesses.ReplayCanStray | py/procmux/server.py:301-308 | a run in which the subscribe of a replaced client puts the replay of a running process on the newer connection, whose handler has not begun to read |
| PyWitnesses.StrayOutput | py/procmux/server.py:457-458 | a run in which an exited and killed process writes to a later client that sent nothing |
| PyLiveServer.ProcmuxServer.RelayOrBuffer | py/procmux/server.py:376-383 | writes to the current writer, drops without one, buffers when not subscribed |
| PyLiveServer.ProcmuxServer.TakeStdout | py/procmux/server.py:391-410 | one round of the stdout loop, in place |
| PyLiveServer.ProcmuxServer.TakeStderr | py/procmux/server.py:436-444 | one round of the stderr loop, in place |
| PyLiveServer.ProcmuxServer.Reap | py/procmux/server.py:413-421 | after end of file and the wait, the process is exited and its exit is emitted |
| PyLiveServer.ProcmuxServer.ClearFlags | py/procmux/server.py:161-162 | the loop clears the flags of the processes in the table and of no other |
| PyLiveServer.ProcmuxServer.Retire | py/procmux/server.py:495-500 | compare and clear: only the current writer is given up, and only then are flags cleared |
| PyLiveServer.ProcmuxServer.Drained | py/procmux/server.py:489-501 | a relay task goes on after its drain, retiring the writer when it failed |
| PyLiveServer.ProcmuxServer.Connect | py/procmux/server.py:156-170 | takeover: the new writer is installed and the table unsubscribed in one step |
| PyLiveServer.ProcmuxServer.Leave | py/procmux/server.py:193-199 | the `finally` of a handler |
| PyLiveServer.ProcmuxServer.Answer | py/procmux/server.py:483-505 | a result goes to whichever writer is current, or nowhere |
| PyLiveServer.ProcmuxServer.AnswerDrained | py/procmux/server.py:493-501 | a handler goes on after the drain of a result |
| PyLiveServer.ProcmuxServer.CmdSpawn | py/procmux/server.py:224-247 | answers for a running name, else removes the entry and waits for the child |
| PyLiveServer.ProcmuxServer.FinishSpawn | py/procmux/server.py:247-268 | the new process is entered under its name, over whatever is there by now |
| PyLiveServer.ProcmuxServer.FinishKill | py/procmux/server.py:474-481 | exited with the return code, both relay tasks cancelled |
| PyLiveServer.ProcmuxServer.CmdKill | py/procmux/server.py:270-277 | not found, already exited, unreachable group, or waits for the child |
| PyLiveServer.ProcmuxServer.FinishCmdKill | py/procmux/server.py:275-277 | finishes the kill and removes whatever has the name by now |
| PyLiveServer.ProcmuxServer.CmdInterrupt | py/procmux/server.py:279-288 | answers by case and changes no process |
| PyLiveServer.ProcmuxServer.Replay | py/procmux/server.py:303-306 | the loop writes the buffer in order with no wait in between |
| PyLiveServer.ProcmuxServer.Flush | py/procmux/server.py:299-308 | buffer written if there is a writer, cleared in any case, process subscribed |
| PyLiveServer.ProcmuxServer.CmdSubscribe | py/procmux/server.py:290-312 | not found, or flush, then wait for the drain or answer at once |
| PyLiveServer.ProcmuxServer.FinishSubscribe | py/procmux/server.py:310-331 | a failed drain retires the writer and answers nothing; else the answer counts what was flushed |
| PyLiveServer.ProcmuxServer.CmdUnsubscribe | py/procmux/server.py:333-339 | clears the flag and answers, or not found |
| PyLiveServer.ProcmuxServer.List | py/procmux/server.py:341-352 | the loop builds one row for every process in the table and no other |
| PyLiveServer.ProcmuxServer.HandleCommand | py/procmux/server.py:203-222 | dispatches by verb |
| PyLiveServer.ProcmuxServer.HandleStdin | py/procmux/server.py:360-369 | the pipe of a running process is written the data and waited for; anything else changes nothing |
| PyLiveServer.ProcmuxServer.FinishStdin | py/procmux/server.py:369-372 | a drained pipe moves the stdin timestamp |
| PyLiveServer.ProcmuxServer.HandleLine | py/procmux/server.py:175-188 | one line of a client, up to the first wait |
| PyLiveServer.ProcmuxServer.KillNext | py/procmux/server.py:129-133 | one round of the shutdown loop |
| Demux.DemuxCorrect | rs/src/client.rs:57-119 | for every wire sequence and schedule of registrations a queue holds exactly what arrived for its name while it was the registered one, in order, and the sentinel if it was registered when the sentinels went out |
| Demux.SentinelLast | rs/src/client.rs:114-119 | a queue gathers at most one sentinel and nothing after it, and only once the loop has been left |
| Demux.SentinelSent | rs/src/client.rs:114-119 | queues registered when the loop ends by end of file or error end with exactly one |
| Demux.GatherHeard | rs/src/client.rs:57-102 | a queue registered before anything arrived gathers all that is heard for its name |
| Demux.ResponsesHeard | rs/src/client.rs:69-72 | the results heard, in order, are the responses handed to callers |
| Callers.MatchedExactly | rs/src/client.rs:138-171 | a call takes its own response if and only if its line went out whole and as many earlier calls were given up after sending theirs as were answered after a spoiled line |
| Callers.MatchedUnlessOrphaned | rs/src/client.rs:138-171 | when no write was torn, an answered call has its own response if and only if no earlier call was given up after its line had gone out |
| EndToEnd.RequestResponse | rs/src/client.rs:138-171 | through server and client, a call's result is the server's answer to a definite command line, which is its own exactly under the condition of `Callers.MatchedExactly`; torn lines may look like anything to the server, the last one read at end of file included |
| EndToEnd.ResponseIsOwn | rs/src/client.rs:138-171 | with whole writes and no earlier call given up, `send_command` returns the server's answer to that very command |
| EndToEnd.QueueIsPrefix | rs/src/client.rs:57-119 | the queue of a name registered throughout a connection is a prefix of what its channel accepted for that name |
| EndToEnd.Handoff | rs/src/server.rs:171-183 | over any number of successive connections whose clients kept a name registered and read everything, the queues joined are exactly what the processes of that name sent, in order |
| EndToEnd.HandoffOfOne | rs/src/server.rs:171-183 | for a name spawned once that lost nothing, the joined queues followed by the buffer are the whole log |
| EndToEnd.HandoffOfOneGone | rs/src/server.rs:426-434 | the same for a process that has left the table, with what was forgotten then in place of the buffer |
| RustLiveClient.ProcmuxConnection.RegisterProcess | rs/src/client.rs:202-210 | a fresh empty queue replaces the registered one |
| RustLiveClient.ProcmuxConnection.UnregisterProcess | rs/src/client.rs:213-216 | the name is forgotten, its queue unchanged |
| RustLiveClient.ProcmuxConnection.Receive | rs/src/client.rs:57-102 | a result joins the responses, another message the queue of its name, or is dropped |
| RustLiveClient.ProcmuxConnection.StreamEnds | rs/src/client.rs:103-115 | the loop is left and the connection marked closed |
| RustLiveClient.ProcmuxConnection.SendSentinels | rs/src/client.rs:116-119 | the loop over the table adds the sentinel to every registered queue once and to no other |
| RustLiveClient.ProcmuxConnection.Close | rs/src/client.rs:219-223 | the demultiplexer stops where it is, without sentinels |
| RustLiveClient.CommandPort.Begin | rs/src/client.rs:146-158 | a caller has the lock and is about to write |
| RustLiveClient.CommandPort.WriteCommand | rs/src/client.rs:159-163 | one whole line leaves, spoiled if it continues a torn one, and the caller holds the lock for its response |
| RustLiveClient.CommandPort.TearCommand | rs/src/client.rs:159-163 | a failed or cancelled write lets go of the lock and may leave part of a line |
| RustLiveClient.CommandPort.SendStdin | rs/src/client.rs:184-199 | a whole stdin line leaves between commands |
| RustLiveClient.CommandPort.Take | rs/src/client.rs:165-167 | the oldest unconsumed response is returned and the lock released |
| RustLiveClient.CommandPort.GiveUp | rs/src/client.rs:166-170 | a timeout or cancellation releases the lock and consumes nothing |
| PyClient.RunMirrors | py/procmux/client.py:45-79 | every run of the Python demultiplexer is a run of the shared one, with leaving the loop and the sentinels as one step |
| PyClient.QueueExact | py/procmux/client.py:99-107 | the exact queue contents, as `Demux.DemuxCorrect` |
| PyClient.SentinelOnceAndLast | py/procmux/client.py:72-79 | however the loop is left, `close` included, every queue registered then ends in the one sentinel it will ever hold and never changes again |
| PyClient.ClosedTooSoon | py/procmux/client.py:109-116 | a close before the demultiplexer first runs sends no sentinel |
| PyClient.MatchedUnlessGivenUp | py/procmux/client.py:85-97 | for every interleaving of callers an answered call has its own response if and only if no earlier call was given up |
| PyLiveClient.ProcmuxConnection.RegisterProcess | py/procmux/client.py:99-103 | a fresh empty queue replaces the registered one |
| PyLiveClient.ProcmuxConnection.UnregisterProcess | py/procmux/client.py:105-107 | the name is forgotten, its queue unchanged |
| PyLiveClient.ProcmuxConnection.Receive | py/procmux/client.py:59-67 | one parsed message is routed |
| PyLiveClient.ProcmuxConnection.Finally | py/procmux/client.py:72-79 | closed, and the loop puts the sentinel into every registered queue once and into no other |
| PyLiveClient.ProcmuxConnection.Close | py/procmux/client.py:109-112 | closed, and the demultiplexer told to stop |
| PyLiveClient.ProcmuxConnection.TaskCancelled | py/procmux/client.py:113-116 | runs the `finally` block, unless the loop was never entered |

## Left out

- Socket binding and removal, accepting, OS spawning, `setsid`, real signals and real time: their outcomes are chosen freely.
- JSON and its libraries: messages are datatypes and framing is lossless; encoding a message never fails, whereas an unencodable one (a lone surrogate in Python) would raise in a relay or in a replay.
- Bytes, UTF-8 and line splitting: reading starts from complete lines, end of file or an error; an unterminated last line counts as a line.
- Environment, working directory and `env_inherit`: they only reach the child.
- Stdio logging and rotation, startup helpers and entry points: no effect on relaying.
- Liveness, fairness and bounded time: only safety is proved, over all schedules.
- Delivery beyond the client channel or `writer.write` into the kernel: a client hears some prefix of what was accepted.
- The two nested `select!` loops of the Rust server, and the event loop of Python: their rounds are the steps of `RustWorld.Step` and `PyServer.Step`, and runs are sequences of steps rather than methods with endless loops.
- Stopping either server's process with coroutines half done: Python's final cancellation is the labels `Depart` and `Vanish`.
- The state of a Python coroutine (where it waits) is a value in `handlers` and in the relay fields of a process, not a suspended method.
- Integer widths of pids, exit codes and counts: nothing is computed with them.
- EndToEnd.Handoff: assumes each client read all its channel accepted; with less, `QueueIsPrefix` is what holds.
