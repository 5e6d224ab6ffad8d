# The agent stack of Kubyl, and five smaller parts, in Dafny

Kubyl talks to coding agents over a line-based JSON-RPC connection. This project models the three
layers that do so and proves what holds over all their runs and interleavings:

- **Connection** (`jsonrpc.rs`, `acp.rs`): request ids and their waiters, the reader with its drain at
  the end of the stream, answers that travel on the incoming stream, the router that answers an
  agent's request or turns it into one call to the app, and the running prompts under their lock.
  `Wire.dfy` is the state machine of one connection: each move is what one of the concurrent parts
  does in one go, and moves interleave freely. `Connection.dfy` has the code's own form, objects with
  fields, and proves that each of their methods is a path of those moves.
- **Core** (`service.rs`): threads, sessions, prompt queues, cards that wait for the user, grants,
  the write switch, agent slots, tool contexts. `Service.dfy` is the class `AgentCore`; each method is
  proved to change the whole state as a function of `AgentSteps.dfy` says, loop by loop. The theorems
  are about runs: any sequence of events (user, app, timers, finished work, calls of agents), from the
  empty state. `AgentMoves.dfy` and `AgentRuns.dfy` break every event into small moves, so that an
  invariant is proved move by move.
- **Stack** (`Stack*.dfy`, `Handing.dfy`, `WireOut.dfy`): the core and any number of connections side
  by side; a call is handled in the core when the app takes it from its connection.

The history `log` in the core's state records what happened: prompts given and handed over, answers of
the user, grants, commands started, replies, decisions. It is there to state properties over whole
runs; no step looks at it.

Each step is also stated on its own, in plain words and without the functions that compute it: what a
request of an agent becomes (`AgentRequests`), what ends of turns, the user and timers do (`AgentDeeds`,
`AgentStarts`), what an answer picks and which tools are Kubyl's own (`AgentChoices`), where a message
goes (`WireRoutes`), which texts are matchers and what is wrong
with the others (`MatcherTexts`, `MatcherErrors`), and likewise `TranscriptUpdates`,
`MergeWords` and `Utf8Letters`. `AgentReasons`, `AgentTold` and `AgentAuthority` carry it over whole runs.

The smaller parts: transcripts (`Transcript.dfy`), the printer and parser of matchers and the shell
line (`Matchers.dfy`, `Policy.dfy`), the output of commands (`Utf8.dfy`, `Terminal.dfy`), the merge of
alerts (`Merge.dfy`), remembered threads (`Remembered.dfy`), and the update simulator of the
development scripts (`UpdateWorld.dfy`).

Time is an integer, JSON is opaque, channels are sequences, a `TaskHandle` that is dropped is a number
that no event carries any more. Text of terminals is bytes of UTF-8; other text is a sequence of
characters.

## Where the code does not do what it says, or might be expected to do

Each of these is proved: an input that fails, and, for all inputs, exactly when the code does meet the
property.

- `service.rs:3-4` says that an agent's process stops with its last thread. When the last thread of an
  agent is closed while its program is still being looked up, the end of the search starts the agent
  for no thread (`AgentProcesses.ClosedTooEarly`). That is the only way:
  `AgentProcesses.AgentsStopWithTheirThreadsExactly`.
- A thread that starts goes on doing so until it is retried, when the search for its agent's program is
  replaced by another one: the search for another agent, a change of settings, or a refresh
  (`AgentAttendance.ReplacedTooEarly`). `AgentAttendance.StartingThreadsAreAttendedExactly` says, for
  every event, that this is the only way to leave a starting thread with nothing under way.
- `open_waiting` opens a session for every thread that waits for one, also when an opening of that
  thread is under way. When the second opening ends, whatever session it brings, the thread becomes idle
  although its prompt is in flight (`AgentReopen.ReopeningLosesTheTurn`).
  `AgentReopen.OpeningKeepsTurns`, `SignInKeepsTurns` and `SignedInKeepsTurns` say exactly when openings
  and sign-ins keep the turns of each thread, and `AgentTurns.OnePromptAtATime` assumes just that of
  every event (`AgentRuns.Considerate`).
- A prompt that is sent after the reader drained its waiters never gets an answer from the connection
  (`Connections.LatePromptHasNoEnd`); exactly which prompts do is `WireTurns.EveryTurnEnds`. It ends in
  the core when the end of the connection is handled (`StackResults.NothingOutlivesItsConnection`).
- The terminal's pump decodes the whole buffer at once when it holds a byte that is no text, so a
  character that the read cuts off right there is lost (`Utf8.SplitLetterIsLost`). The reads do not
  show exactly for the streams `Utf8.ChunkingIsInvisibleExactly` describes; text is one of them.
- A firing alert of Prometheus can be shown as pending, by the entry of one that came before it
  (`AlertMerge.FiringCanLookPending`); exactly when is `AlertMerge.LooksPendingExactly`.
- The simulator's documentation (`fake_ocp.py:16-22`) says that a minor update also needs the admin
  gate acknowledged. A forced update goes past the gate (`UpdateWorld.ForceSkipsTheGate`); when an update
  starts is `UpdateWorld.StartsExactly`.
- A simulator restarted in the middle of an update takes the target for the present version when the
  history is empty (`UpdateWorld.EmptyHistoryLosesTheVersion`,
  `UpdateWorld.VersionSurvivesExactly`).

## Model

| member | source | states |
|---|---|---|
| Duties.ExactlyOnce | crates/kubyl_agent_core/src/service.rs:1486-1502 | Over every run: the requests and proposed changes that are open (on a card, in running work) together with those settled are, as a multiset, exactly those that reached the core. So each is settled at most once, and once when it is open nowhere, whichever of answer, cancel, end of turn, end of connection, elicitation end, closing or refusal settles it |
| Duties.EachChangeIsDecidedOnce | crates/kubyl_agent_core/src/service.rs:1678-1689 | Over every run: a change brought once is decided or dropped at most once, so never both approved and rejected |
| AgentAuthority.EveryCommandStandsOnAnAnswer | crates/kubyl_agent_core/src/service.rs:1369-1440 | Over every run: a command that ran stands on an earlier allow of its own card, which showed that line and that environment with its secrets taken out of the values; or on a grant an earlier allow of an execute prompt in the same thread made, at most 30 s old, for the same words as the line or its shell-wrapped inner command, with no environment and no warning |
| AgentAuthority.EveryApprovalIsAnAnswer | crates/kubyl_agent_core/src/service.rs:1678-1689 | Over every run: a change was approved only by an earlier allow on the very card that carried it, while changes were on in the settings and for the thread |
| AgentReasons.EveryReplyHasItsReason | crates/kubyl_agent_core/src/service.rs:1530-1766 | Over every run: a request was told that an option is selected only because of an earlier answer on its own permission card that picks that option (the named one for a choice, the first allowing one for an allow, the first rejecting one for a denial or a form), or because the request was let through: its name or title, or the known title of its tool, is, trimmed, one of sixteen names behind one of five prefixes, and the option is the first lasting allow, else the first allow for once. Likewise for accepted, declined, started, read and written: each stands on its own card or command |
| AgentTold.EveryAnswerIsTold | crates/kubyl_agent_core/src/service.rs:1665-1766 | Over every run: every answer of the user is followed by what it must bring: a permission request is told the option the answer picks, or cancelled when there is none; picking one that allows, of a prompt about a command, is followed by a grant for that card and command; an allowed command runs or is told that the agent stopped, a denied one is told so; a denied file is told so; forms, links and changes are told as answered |
| AgentAuthority.WriteGate | crates/kubyl_agent_core/src/service.rs:827-881 | Over every run: a change waits only on a thread whose switch is on, and a switch is on only while the settings allow changes |
| AgentCards.OneRunPerCard | crates/kubyl_agent_core/src/service.rs:1704-1730 | Over every run: no two commands ran on the same card; each allow, and each grant, backs at most one run |
| AgentCards.CardIds | crates/kubyl_agent_core/src/service.rs:1374-1501 | Over every run: card ids are pairwise distinct over all threads, at most the counter, and ascend within each thread |
| AgentCards.AttentionIsTheOldest | crates/kubyl_agent/src/status.rs:74-86 | Over every run: while a card waits anywhere, the thread to show is the one whose first card has the smallest id of all cards of all threads; else it is the newest thread at work |
| AgentOrder.CardsArriveInOrder | crates/kubyl_agent_core/src/service.rs:842-881 | From every state, over every run: a card that waits later was waiting before, unchanged, or its id is above all ids given until then |
| AgentPrompts.PromptsAreConserved | crates/kubyl_agent_core/src/service.rs:1258-1333 | Over every run, for every thread there is or was: the prompts given to it are, in order, those handed to a connection or withdrawn, followed by those still queued |
| AgentTurns.OnePromptAtATime | crates/kubyl_agent_core/src/service.rs:1258-1333 | Over every run with considerate openings and sign-ins: a thread is Running exactly while a prompt of its own is in flight on its agent's connection, there is never a second one, the prompts in flight in a session are those of the thread that has it, and no other thread of the agent has that session |
| AgentReopen.OpeningKeepsTurns | crates/kubyl_agent_core/src/service.rs:1139-1238 | The end of an opening keeps the turns of all threads if and only if the session is no other thread's and no prompt of it, nor of the thread that gets it, is in flight; or the opening failed on a thread that is not Running |
| AgentReopen.SignInKeepsTurns | crates/kubyl_agent_core/src/service.rs:793-820 | Starting a sign-in keeps the turns of all threads if and only if the thread is not Running |
| AgentReopen.SignedInKeepsTurns | crates/kubyl_agent_core/src/service.rs:793-820 | The end of a sign-in keeps the turns of all threads if and only if it succeeded or its thread is not Running |
| AgentReopen.ReopeningLosesTheTurn | crates/kubyl_agent_core/src/service.rs:1030-1052 | A run after which a thread is idle although its prompt is in flight: its session was opened twice, and whatever session the second opening brought |
| AgentLinks.NoThreadIsStranded | crates/kubyl_agent_core/src/service.rs:1258-1283 | Over every run: a thread with a session has a connected agent, a Running thread has a session, and no prompt ever left its queue without a connection to go to |
| AgentLinks.ClosedEndsItsThreads | crates/kubyl_agent_core/src/service.rs:1508-1526 | Handling the end of a connection ends every thread of the agent, with no session, no card and no opening left but its queue kept, frees the slot, and leaves all other threads as they were |
| AgentChoices.ChoiceExactly | crates/kubyl_agent_core/src/service.rs:1704-1730 | What an answer picks among the choices of a card: for Choose, the first with that id; for Allow, the first that allows; for Deny and Submit, the first that rejects; nothing if and only if there is no such choice |
| AgentChoices.OwnToolExactly | crates/kubyl_agent_core/src/service.rs:1542-1546 | A name is one of Kubyl's own tools if and only if it is, trimmed, one of the sixteen names behind one of the five prefixes, all written out |
| AgentChoices.AllowOptionExactly | crates/kubyl_agent_core/src/service.rs:1547-1557 | The option that lets a request through is the first lasting allow, else the first allow for once, and there is none if and only if neither is offered |
| AgentRequests.PermissionsExactly | crates/kubyl_agent_core/src/service.rs:1530-1611 | A permission request: of no thread, it is cancelled; for an own tool with an allow option, it is let through and told that option; else the only change to its thread is one more card at the end, with the title, input, command and choices of the request and, where it names none, those known of its tool |
| AgentRequests.CommandsExactly | crates/kubyl_agent_core/src/service.rs:1369-1440 | A command of no thread is refused; one that the grant of its thread is for, in words, time, environment and warning, runs and uses the grant up; any other becomes a card with its line, its folder, its environment without KUBECONFIG and without secrets, and a warning exactly when something is odd or was left out |
| AgentRequests.FilesExactly | crates/kubyl_agent_core/src/service.rs:1441-1485 | A file to read or write becomes a card of its thread with its path, what is written and what was there; without a thread it is refused |
| AgentRequests.QuestionsExactly | crates/kubyl_agent_core/src/service.rs:1614-1662 | A question becomes a card of the thread of its session, else of the first that runs, else of the first of the agent; it is cancelled when there is none, and refused when it is neither a form nor a link |
| AgentRequests.UpdatesExactly | crates/kubyl_agent_core/src/service.rs:1353-1368 | An update changes the transcript of the first thread of its session, or of one that resumes it, and nothing else |
| AgentDeeds.TurnEndsExactly | crates/kubyl_agent_core/src/service.rs:1285-1333 | At the end of a turn: the transcript is settled and says how the turn ended, all cards are cancelled in their order, openings are dropped; the thread is idle, or needs a sign-in, or is at work on its first queued prompt; nothing else changes |
| AgentDeeds.NextExactly | crates/kubyl_agent_core/src/service.rs:1258-1283 | An idle thread hands its first queued prompt to its connection in its session, and runs; without one nothing changes |
| AgentDeeds.AllFailExactly | crates/kubyl_agent_core/src/service.rs:1258-1283 | When the connection takes no prompt, each queued one ends at once, in order, with a note that the connection closed; the cards are cancelled with the first, and the thread is idle with an empty queue |
| AgentDeeds.PromptsExactly | crates/kubyl_agent_core/src/service.rs:674-697 | A prompt that is given is shown and comes last in the queue; an idle thread hands over the first of the queue |
| AgentDeeds.OpeningsExactly | crates/kubyl_agent_core/src/service.rs:1139-1238 | The end of an opening the thread holds gives it exactly that session and hands over its first queued prompt; or makes it need a sign-in, or fail; the end of one it does not hold changes nothing |
| AgentDeeds.OpensExactly | crates/kubyl_agent_core/src/service.rs:1030-1052 | Exactly the threads of the agent without a session that start, or could not start or ended before, become starting with one new handle each; all others stay |
| AgentDeeds.ConnectsExactly | crates/kubyl_agent_core/src/service.rs:1000-1028 | When an awaited agent connects, just those threads open |
| AgentDeeds.CancelsExactly | crates/kubyl_agent_core/src/service.rs:699-713 | Cancelling empties queue and cards of that thread alone and interrupts its session when it runs |
| AgentDeeds.CancelAllExactly | crates/kubyl_agent_core/src/service.rs:1908-1923 | Cards that go away are cancelled once each, in order: permission, form and link each in its own way, and a change is dropped |
| AgentDeeds.AnswersTakeTheirCard | crates/kubyl_agent_core/src/service.rs:1665-1703 | An answer takes just its card away; of its thread nothing else changes but the grant, and that only when a permission card is answered |
| AgentDeeds.SwitchExactly | crates/kubyl_agent_core/src/service.rs:827-840 | The switch is on exactly when that is asked for and allowed; going off takes away exactly the waiting changes |
| AgentDeeds.SettingsExactly | crates/kubyl_agent_core/src/service.rs:498-525 | When the settings stop allowing changes, all switches are off and exactly the waiting changes are gone; else no thread changes |
| AgentDeeds.PruneExactly | crates/kubyl_agent_core/src/service.rs:844-857 | The pruner takes away exactly the changes nobody waits for any more |
| AgentDeeds.PagesExactly | crates/kubyl_agent_core/src/service.rs:1486-1502 | A finished page takes away exactly the links with its id, of the threads of the agent |
| AgentDeeds.ChangesExactly | crates/kubyl_agent_core/src/service.rs:860-881 | A proposed change becomes the last card of its thread when the switch is on, and is dropped otherwise |
| AgentDeeds.ThreadsStartExactly | crates/kubyl_agent_core/src/service.rs:543-623 | A new thread is last, with a new id, its prompt shown and queued, no session, card, grant or leave to change; the others keep all but status and openings |
| AgentDeeds.ClosesExactly | crates/kubyl_agent_core/src/service.rs:639-671 | Closing takes exactly that thread away |
| AgentStarts.GoesExactly | crates/kubyl_agent_core/src/service.rs:889-976 | Getting an agent going, case by case: connected, starting, with a known program, not looked up, missing; what changes and that nothing else does |
| AgentStarts.FoundExactly | crates/kubyl_agent_core/src/service.rs:899-925 | The end of a search says of every agent whether it was found and gets the agent going that it was for; one that was replaced changes nothing |
| AgentStarts.FailsExactly | crates/kubyl_agent_core/src/service.rs:978-997 | A failed start that was awaited frees the slot and fails exactly the threads of the agent without a session; any other changes nothing |
| AgentStarts.RetriesExactly | crates/kubyl_agent_core/src/service.rs:626-637 | A thread without a session starts and gets its agent going; one with a session is left alone |
| AgentStarts.SignedInExactly | crates/kubyl_agent_core/src/service.rs:793-820 | A good end of a sign-in opens a session for its thread on the connection, a bad one makes it fail; the job is over and nothing else changes |
| AgentWires.ClosedLeavesNoRequest | crates/kubyl_agent_core/src/service.rs:1508-1526 | After that step, no card of any thread holds a request of that connection, after any run |
| AgentContexts.ContextsAreThoseOfThreads | crates/kubyl_agent_core/src/service.rs:639-671 | Over every run: the clusters with a tool context are exactly those of open threads, and the pruner runs exactly while a thread is open |
| AgentProcesses.AgentsStopWithTheirThreadsExactly | crates/kubyl_agent_core/src/service.rs:889-976 | If every started agent has a thread, it is so after an event if and only if the event is not the successful end of a search for an agent that is not started and has no thread |
| AgentProcesses.AgentsStopWithTheirThreads | crates/kubyl_agent_core/src/service.rs:658-664 | Over every run without such an event: every agent that starts or runs has a thread |
| AgentProcesses.ClosedTooEarly | crates/kubyl_agent_core/src/service.rs:889-976 | A concrete run with no thread left and an agent that starts |
| AgentAttendance.StartingThreadsAreAttendedExactly | crates/kubyl_agent_core/src/service.rs:889-976 | While every starting thread has something under way (a search for or the start of its agent; once that is connected, an opening or a sign-in of its own), an event leaves one without if and only if it begins a search, for another agent or for all, that replaces one such a thread of an agent without a slot needs |
| AgentAttendance.StartingThreadsAreAttended | crates/kubyl_agent_core/src/service.rs:889-976 | Over every run without such an event: every starting thread has something under way |
| AgentAttendance.EnsureAttends | crates/kubyl_agent_core/src/service.rs:889-976 | With all other threads attended, after `ensure_agent` all are if and only if it replaces no search that a starting thread of another agent needs |
| AgentAttendance.ReplacedTooEarly | crates/kubyl_agent_core/src/service.rs:889-976 | A concrete run that leaves a thread starting with no slot for its agent and no search or other work under way |
| AgentEntries.EntriesKeepTheirPlaces | crates/kubyl_agent_core/src/thread.rs:418-585 | From every state, over every run, with prompts, notices, updates, ends of turns and of connections in any order: a conversation still open shows every entry at its index, of the same kind, its text at most longer, its tool the same; tool ids stay unique |
| AgentRuns.StepMoves | crates/kubyl_agent_core/src/service.rs:1353-1528 | Every event of the core, from any state with distinct thread ids, is a chain of small moves each of which is allowed where it comes; what the environment promises of the event holds of each move |
| AgentSafety.RunKeeps | crates/kubyl_agent_core/src/service.rs:1353-1528 | What every allowed move keeps holds after every run |
| AgentTypes.FirstIsFirst | crates/kubyl_agent_core/src/service.rs:1347-1351 | The search for a thread finds the first that fits, and nothing only if none does |
| AgentService.AgentCore.constructor | crates/kubyl_agent_core/src/service.rs:316-343 | A new core has no thread, slot, card or context and has looked up no agent |
| AgentService.AgentCore.StartThread | crates/kubyl_agent_core/src/service.rs:543-623 | Adds one thread with a new id at the end, its first prompt queued and shown, its cluster's context and the pruner on, and gets its agent going; nothing else changes |
| AgentService.AgentCore.Retry | crates/kubyl_agent_core/src/service.rs:626-637 | Only a thread without a session starts again |
| AgentService.AgentCore.CloseThread | crates/kubyl_agent_core/src/service.rs:639-671 | Withdraws the thread's prompts and cancels its cards, takes it out, and frees its agent and context if no other thread needs them |
| AgentService.AgentCore.Send | crates/kubyl_agent_core/src/service.rs:674-697 | Shows and queues a prompt that is not empty, at the end; hands it over at once only when the thread is idle; restarts a thread that failed or ended |
| AgentService.AgentCore.Cancel | crates/kubyl_agent_core/src/service.rs:699-713 | Withdraws all queued prompts, answers every card as cancelled, and interrupts the turn exactly when one runs on a connection |
| AgentService.AgentCore.SignIn | crates/kubyl_agent_core/src/service.rs:793-820 | Starts a sign-in on the connection, or the agent when there is none |
| AgentService.AgentCore.SetWrites | crates/kubyl_agent_core/src/service.rs:827-840 | Changes go on only when the settings allow; going off drops every waiting change and nothing else |
| AgentService.AgentCore.SettingsChanged | crates/kubyl_agent_core/src/service.rs:498-525 | When changes are not allowed any more, every thread's switch goes off and every waiting change is dropped; agents are looked up anew |
| AgentService.AgentCore.RefreshAgents | crates/kubyl_agent_core/src/service.rs:476-496 | Begins a search for all programs, which replaces the one under way, and changes nothing else |
| AgentService.AgentCore.SetProgram | crates/kubyl_agent_core/src/service.rs:370-388 | Sets and marks as looked up the program of an agent that is configured; another id changes nothing |
| AgentService.AgentCore.AddNotice | crates/kubyl_agent_core/src/service.rs:393-411 | Adds one note at the end of the transcript of the thread, if there is one |
| AgentService.AgentCore.ChangeRequested | crates/kubyl_agent_core/src/service.rs:860-881 | A change becomes a card with the next id only on a thread with changes on; else it is rejected at once |
| AgentService.AgentCore.RetainCards | crates/kubyl_agent_core/src/service.rs:844-857 | Keeps exactly the cards that pass, in their order, and lets go of the others, each once |
| AgentService.AgentCore.DrainCards | crates/kubyl_agent_core/src/service.rs:1908-1923 | Empties a thread's cards and answers each once, by its kind |
| AgentService.AgentCore.EnsureAgent | crates/kubyl_agent_core/src/service.rs:889-976 | Opens the waiting sessions of a connected agent, starts one that is installed, looks one up that was not looked up, else marks its waiting threads |
| AgentService.AgentCore.AgentStarted | crates/kubyl_agent_core/src/service.rs:978-997 | Only the start the slot waits for counts; a failed one frees the slot and fails the agent's threads |
| AgentService.AgentCore.Waiters | crates/kubyl_agent_core/src/service.rs:1030-1052 | Lists exactly the positions of the agent's threads that wait for a session, in order |
| AgentService.AgentCore.OpenWaiting | crates/kubyl_agent_core/src/service.rs:1030-1052 | Opens a session for each thread that waits for one, one after the other |
| AgentService.AgentCore.OpenSession | crates/kubyl_agent_core/src/service.rs:1054-1136 | Starts an opening with a new handle, which the thread keeps, when the agent is connected |
| AgentService.AgentCore.SessionOpened | crates/kubyl_agent_core/src/service.rs:1139-1238 | An opening the thread still holds gives it the session and hands over its first queued prompt, or fails it; any other is ignored |
| AgentService.AgentCore.NextPrompt | crates/kubyl_agent_core/src/service.rs:1258-1283 | Hands over the first queued prompt of a thread with a session; when the connection takes none, ends that turn at once and goes on with the next, to the end of the queue |
| AgentService.AgentCore.TurnEnded | crates/kubyl_agent_core/src/service.rs:1285-1333 | Settles the transcript, cancels every card of the thread, drops its openings, sets the status by the result, and goes on with the queue unless the user must sign in |
| AgentService.AgentCore.AskPermission | crates/kubyl_agent_core/src/service.rs:1530-1611 | Cancels a request of no thread; allows Kubyl's own tools at once when there is an allow option, the lasting one first; else makes one card that shows the command it would grant |
| AgentService.AgentCore.CreateTerminal | crates/kubyl_agent_core/src/service.rs:1369-1440 | Uses the thread's grant up only when it covers the command; then runs it, else asks with a card; a request of no thread is refused |
| AgentService.AgentCore.Elicit | crates/kubyl_agent_core/src/service.rs:1614-1662 | Puts the question on the thread of its session, else on one the agent works on, else on any thread of the agent; cancels it when there is none and refuses what it cannot read |
| AgentService.AgentCore.AcceptUrls | crates/kubyl_agent_core/src/service.rs:1486-1502 | Accepts exactly the waiting links with that elicitation id and keeps all other cards in order, from the last card to the first |
| AgentService.AgentCore.HandleCall | crates/kubyl_agent_core/src/service.rs:1353-1528 | Every kind of call does to the whole state what its step says |
| AgentService.AgentCore.AnswerCard | crates/kubyl_agent_core/src/service.rs:1665-1766 | Takes exactly the named card off its thread and settles it by its kind and the answer; an unknown thread or card changes nothing |
| AgentService.AgentCore.HandleAll | crates/kubyl_agent_core/src/service.rs:1353-1528 | Whatever events the object handles, its state is the run of them, so all theorems over runs hold of the object |
| WireReplies.IdsAreNew | crates/kubyl_agent_core/src/jsonrpc.rs:123-138 | In every reachable state a new request gets an id no request had before, and no other request changes |
| WireReplies.RepliesFindTheirRequest | crates/kubyl_agent_core/src/jsonrpc.rs:262-316 | In every reachable state each registered waiter waits, or was taken back unsent, or was resolved: at most once, and by the first answer with its id heard since it was registered or, if there was none, by the drain |
| WireReplies.UnknownAnswersChangeNothing | crates/kubyl_agent_core/src/jsonrpc.rs:294-312 | An answer whose id nobody waits for, unknown or heard before, changes nothing |
| WireReplies.DrainResolvesAll | crates/kubyl_agent_core/src/jsonrpc.rs:219-234 | The drain resolves exactly the waiters there are, each once with the closed error, and leaves none |
| WireTurns.RouterFindsThePrompt | crates/kubyl_agent_core/src/acp.rs:517-529 | In every interleaving, the router that takes the end of a prompt finds it among the running ones if and only if `start_prompt` reported it as sent |
| WireTurns.TurnsEndOnce | crates/kubyl_agent_core/src/acp.rs:517-529 | In every interleaving, no prompt has two ends among the calls |
| WireTurns.TurnEndsAfterItsUpdates | crates/kubyl_agent_core/src/jsonrpc.rs:142-152 | In every interleaving, the end of a prompt comes after every update the agent wrote before its answer |
| WireTurns.TurnEndsWithItsAnswer | crates/kubyl_agent_core/src/acp.rs:451-459 | The end carries the session the prompt was sent in and the result of the first answer with its id heard since it was registered, or of the drain if there was none |
| WireTurns.EveryTurnEnds | crates/kubyl_agent_core/src/jsonrpc.rs:219-234 | Once the router stopped, a prompt has its end among the calls if and only if it was reported as sent and its waiter was registered before the drain; and `Closed` comes after every other call but writes still being looked up |
| WireTurns.RunningPromptsAreSomewhere | crates/kubyl_agent_core/src/acp.rs:451-459 | In every reachable state the running prompts are exactly those sent whose waiter waits or whose answer is on the stream |
| WireStream.StreamKept | crates/kubyl_agent_core/src/jsonrpc.rs:262-316 | Every move keeps the incoming stream in the order in which things were heard, with each prompt's answer on it at most once |
| WireTokens.EveryRequestIsSomewhere | crates/kubyl_agent_core/src/acp.rs:543-676 | In every reachable state every request heard is in exactly one place: on the stream, in work, waiting for the app, with the app, or answered, once |
| WireTokens.OnlyRequestsAreAnswered | crates/kubyl_agent_core/src/jsonrpc.rs:50-90 | Every answer is to a request that was heard, and is its only one |
| Wires.PathKeeps | crates/kubyl_agent_core/src/jsonrpc.rs:172-238 | What every move of a connection keeps holds after every interleaving |
| Connections.Responder.Respond | crates/kubyl_agent_core/src/jsonrpc.rs:50-90 | Writes exactly one answer while the writer is there, none otherwise, and the drop that follows adds nothing |
| Connections.Responder.Drop | crates/kubyl_agent_core/src/jsonrpc.rs:84-90 | Answers with an error exactly when nothing was answered |
| Connections.Responder.EndTwice | crates/kubyl_agent_core/src/jsonrpc.rs:50-90 | However a responder ends, one line with its id is written while the writer is there, and ending again adds none |
| Connections.Connection.Request | crates/kubyl_agent_core/src/jsonrpc.rs:123-138 | Uses up an id, leaves a waiter exactly when the writer took the line, and says which |
| Connections.RequestIsMoves | crates/kubyl_agent_core/src/jsonrpc.rs:123-152 | What a request does is a sequence of the connection's moves, each possible where it comes |
| Connections.Connection.StartPrompt | crates/kubyl_agent_core/src/acp.rs:451-459 | Notes the prompt as running exactly when it was sent, and gives the lock back |
| Connections.PromptIsMoves | crates/kubyl_agent_core/src/acp.rs:451-459 | What `start_prompt` does, from taking the lock to giving it back, is a sequence of the connection's moves, each possible where it comes |
| Connections.LatePromptHasNoEnd | crates/kubyl_agent_core/src/jsonrpc.rs:219-234 | A prompt sent after the drain and after the router stopped is reported as sent, stays among the running ones, and has no end among the calls |
| Connections.Connection.DispatchOne | crates/kubyl_agent_core/src/jsonrpc.rs:262-316 | Requests and notifications join the stream; an answer resolves its waiter or is ignored |
| Connections.Connection.Dispatch | crates/kubyl_agent_core/src/jsonrpc.rs:240-260 | The items of a line are heard one by one, in order |
| Connections.Connection.DrainWaiters | crates/kubyl_agent_core/src/jsonrpc.rs:219-234 | In whatever order the map has them, every waiter is resolved once, and none is left |
| Connections.Connection.RouteOne | crates/kubyl_agent_core/src/acp.rs:508-682 | One message is answered, worked on, or becomes one call, and nothing else is taken |
| Connections.Connection.RouteRest | crates/kubyl_agent_core/src/acp.rs:508-682 | The router takes all that is left of a finished stream and then says `Closed` |
| WireRoutes.RequestsGoWhereTheyMust | crates/kubyl_agent_core/src/acp.rs:543-676 | Over every path of moves: a request that the router took has become what its kind asks for, whatever happened since. A read of a file outside the folder is a call, one inside is work or served; a write that fits is looked at and then a call; understood and allowed terminal, permission and elicitation requests are calls; a method whose capability is off was told that it is not found, and one that cannot be read that its parameters are wrong |
| WireRoutes.OnlyInsideIsRead | crates/kubyl_agent_core/src/acp.rs:628-641 | Over every path of moves: a file is read without asking only for a request whose file was inside the folder when the router took it, while reading was allowed |
| WireRoutes.FilesExactly | crates/kubyl_agent_core/src/acp.rs:619-672 | The whole effect of taking a request for a file, for every capability, finding and form of the request |
| WireRoutes.TerminalsExactly | crates/kubyl_agent_core/src/acp.rs:584-618 | The whole effect of taking a request about a running command |
| WireRoutes.NoticesExactly | crates/kubyl_agent_core/src/acp.rs:508-542 | Updates, finished pages and ends of running prompts are calls with what they carry; nothing else is |
| WireRoutes.AppGoneExactly | crates/kubyl_agent_core/src/jsonrpc.rs:84-90 | When the app stops listening, exactly the requests of the calls it has not handled are told that nothing answered |
| Handing.StepFlights | crates/kubyl_agent_core/src/service.rs:1258-1283 | For every event of the core: the prompts in flight afterwards are those before, without the one whose end the event was, and with the one it hands to a connection |
| StackResults.EveryRequestIsAnsweredOnce | crates/kubyl_agent_core/src/acp.rs:543-676 | In every state of the core and all its connections: every request an agent ever made is in exactly one place, from the stream over a card to its answer; so it is answered at most once, and is answered when it is nowhere else |
| StackResults.NothingOutlivesItsConnection | crates/kubyl_agent_core/src/service.rs:1508-1526 | Once the app handled the end of a connection, no agent holds it and no thread has a session or works on it, whatever was sent and when, also after the drain |
| StackResults.WorkHasOnePromptOut | crates/kubyl_agent_core/src/service.rs:1258-1333 | With considerate openings and sign-ins: a thread is Running exactly while a prompt of its own is out on its agent's connection; there is one at most, of the thread's session, nobody else's is out in that session, and its end is still to come: with its waiter, on the stream, or among the calls |
| StackSafety.AgreesKept | crates/kubyl_agent_core/src/acp.rs:508-682 | Every move of the stack keeps the core's prompts in flight the same as those out on each connection |
| Transcripts.ChunkingIsInvisible | crates/kubyl_agent_core/src/thread.rs:444-533 | However a message is cut into chunks, and whatever comes before and after, the transcript is that of the uncut message |
| Transcripts.TextIsConserved | crates/kubyl_agent_core/src/thread.rs:444-533 | For user, agent and thoughts alike: the text of the entries is exactly the text of the chunks, in order |
| Transcripts.FoldKeeps | crates/kubyl_agent_core/src/thread.rs:444-585 | Over all updates no entry is removed or reordered: an index keeps naming an entry of the same kind, whose text only grows or whose tool id stays |
| Transcripts.SettledKeeps | crates/kubyl_agent_core/src/thread.rs:553-561 | Settling keeps all entries in place and leaves no tool pending or running; a second time changes nothing |
| Transcripts.FoldKeepsUnique | crates/kubyl_agent_core/src/thread.rs:535-550 | Tool ids stay unique over all updates |
| Transcripts.ToolsAreIndependent | crates/kubyl_agent_core/src/thread.rs:535-585 | In every interleaving the entry of a tool is what its own updates make of it |
| TranscriptUpdates.ToolsExactly | crates/kubyl_agent_core/src/thread.rs:475-585 | A call or its update changes exactly the newest entry with its id, in just the fields it carries; without one, a call is a new entry at the end and an update of an unknown tool makes one |
| TranscriptUpdates.ChunksExactly | crates/kubyl_agent_core/src/thread.rs:444-462 | A chunk lengthens the last entry when that is of its kind and, for the agent, of its message, and is a new entry at the end otherwise; no other entry changes |
| TranscriptUpdates.SettledExactly | crates/kubyl_agent_core/src/thread.rs:553-561 | Exactly the tools that wait or run count as failed afterwards, and nothing else changes |
| Transcripts.Transcript.Apply | crates/kubyl_agent_core/src/thread.rs:444-533 | The update in place is the fold's step |
| Transcripts.Transcript.Settle | crates/kubyl_agent_core/src/thread.rs:553-561 | Every entry is settled, in place |
| Transcripts.Transcript.ToolIndex | crates/kubyl_agent_core/src/thread.rs:535-550 | Finds the newest entry with the id, searching from the end |
| Policy.CommandLine | crates/kubyl_agent_core/src/policy.rs:79-92 | The loop builds the line in which each argument is bare or quoted |
| Policy.QuotedExactly | crates/kubyl_agent_core/src/policy.rs:69-92 | An argument is shown as it is if and only if it has something in it and only ASCII letters, digits and ten marks; every other is between quotes |
| Shell.CommandLineRoundTrip | crates/kubyl_agent_core/src/policy.rs:79-92 | A POSIX shell (2.2.1, 2.2.2 and 2.3 of the Shell Command Language) splits the line into the words of the command and then exactly the arguments, empty ones included, whatever they hold |
| Shell.LexSingleQuoted | crates/kubyl_alerts/src/actions.rs:533-535 | Any text in single quotes, its quotes escaped, is one word: that text |
| Policy.SameCommandExactly | crates/kubyl_agent_core/src/policy.rs:148-150 | Two commands count as the same if and only if they have the same words in the same order |
| Policy.BlankExactly | crates/kubyl_agent_core/src/policy.rs:136-145 | A granted command covers nothing if it has no word, and only then is it blank |
| Policy.CoversExactly | crates/kubyl_agent_core/src/policy.rs:136-145 | A grant covers lines if and only if it is at most 30 s old, a command was shown, that has a word, and a line has exactly the same words |
| Policy.CoversCommandExactly | crates/kubyl_agent_core/src/policy.rs:113-145 | It covers a command if and only if those words are the words of its line, or of the third word of it when it is `sh`, `bash`, `zsh`, `dash` or `fish`, by any path, with `-c`, `-lc` or `-ic` |
| Policy.ShellInnerExactly | crates/kubyl_agent_core/src/policy.rs:113-132 | A command wraps another if and only if it is such a shell with such a flag and just that one more argument |
| Text.SplitExactly | crates/kubyl_agent_core/src/policy.rs:148-150 | A text splits into words if and only if they have no blank, are not empty, and the text is they with blanks between and around them |
| Matchers.Parse | crates/kubyl_alerts_core/src/matchers.rs:156-224 | The loop over the rest, with its inner loop for quoted values, ends for every text and gives what the grammar gives: the matchers or the first error |
| Matchers.ReadQuoted | crates/kubyl_alerts_core/src/matchers.rs:156-224 | Unescapes up to the first quote that is not escaped, or finds none |
| Matchers.ParseAllIsNormal | crates/kubyl_alerts_core/src/matchers.rs:123-132 | Every matcher that is parsed has a valid, trimmed name without operators, and a regex that compiles when it is one |
| Matchers.UnquoteEscape | crates/kubyl_alerts_core/src/matchers.rs:65-76 | Any value, with any quotes and backslashes, reads back from its printed form |
| Matchers.FormatRoundTrip | crates/kubyl_alerts_core/src/matchers.rs:246-252 | For every text that parses, printing the matchers and parsing again gives the same matchers, with and without braces |
| Matchers.NormalRoundTrip | crates/kubyl_alerts_core/src/matchers.rs:246-252 | The same for every list of valid matchers, wherever it comes from |
| MatcherTexts.BodyExactly | crates/kubyl_alerts_core/src/matchers.rs:156-224 | A text parses to some matchers if and only if a grammar, stated on its own, reads it as them: names, signs, quoted or bare values, blanks, and a comma between; a bare value goes to the first comma |
| MatcherTexts.TextsExactly | crates/kubyl_alerts_core/src/matchers.rs:156-164 | So it is with blanks around the text, and with one pair of braces |
| MatcherTexts.CommaIsFirst | crates/kubyl_alerts_core/src/matchers.rs:210 | An unquoted value ends at the first comma, or at the end when there is none |
| MatcherTexts.UnquotedRoundTrip | crates/kubyl_alerts_core/src/matchers.rs:156-224 | Every list of matchers with valid names and trimmed values that need no quotes, written plainly with commas between, with any blanks around the parts and with or without braces, parses to exactly those matchers |
| MatcherErrors.ErrorsSayWhatIsWrong | crates/kubyl_alerts_core/src/matchers.rs:156-224 | A text that does not parse is matchers up to somewhere, and its error says what is wrong right there: no operator, no name, which name, an odd operator, a quote without end, which regex, no comma |
| Matchers.AmtoolWords | crates/kubyl_alerts_core/src/matchers.rs:255-261 | A shell splits the amtool arguments into exactly one word per matcher |
| Matchers.AmtoolRoundTrip | crates/kubyl_alerts_core/src/matchers.rs:255-261 | For every text that parses, each of those words parses back to its own matcher alone |
| Utf8.ChunkingIsInvisibleExactly | crates/kubyl_agent_core/src/terminal.rs:213-236 | A stream of bytes is decoded the same however it is read if and only if everything after the first byte that is no text is decoded byte by byte |
| Utf8.TextIsPumped | crates/kubyl_agent_core/src/terminal.rs:213-236 | Valid UTF-8 (section 4 of RFC 3629), read in any pieces, comes out as it is |
| Utf8.PumpDecodes | crates/kubyl_agent_core/src/terminal.rs:213-236 | The same with a carry from before, for every stream of that kind |
| Utf8.CarryIsShort | crates/kubyl_agent_core/src/terminal.rs:213-236 | At most three bytes are carried over, and they are the start of a character |
| Utf8Letters.TextExactly | crates/kubyl_agent_core/src/terminal.rs:213-236 | Bytes are text if and only if they are the encoded characters, each a code point that is no surrogate (section 3 of RFC 3629), one after the other |
| Utf8Letters.PartialExactly | crates/kubyl_agent_core/src/terminal.rs:213-236 | Bytes at the end are carried if and only if a character begins with them and goes on |
| Utf8Letters.InvalidExactly | crates/kubyl_agent_core/src/terminal.rs:213-236 | What is no character is replaced, as one, exactly up to where it stops to be the beginning of a character |
| Utf8.SplitLetterIsLost | crates/kubyl_agent_core/src/terminal.rs:213-236 | A stream and a way to read it that loses a letter |
| Terminals.Output.Append | crates/kubyl_agent_core/src/terminal.rs:95-106 | After any appends the text is what is kept of everything appended, and `truncated` is set if and only if everything is longer than the limit |
| Terminals.KeptIsLongest | crates/kubyl_agent_core/src/terminal.rs:95-106 | What is kept is a suffix within the limit that starts at a character, and no longer one does |
| Terminals.KeptTwice | crates/kubyl_agent_core/src/acp.rs:197-208 | Dropping the start early or at the end keeps the same text |
| Terminals.Pump | crates/kubyl_agent_core/src/terminal.rs:213-236 | The read loop appends exactly what the pieces decode to, the carry at the end included |
| Terminals.ShowOutput | crates/kubyl_agent_core/src/terminal.rs:213-236 | Text read in any pieces shows as the longest suffix that fits, with the right `truncated` |
| Terminals.Commands.Spawn | crates/kubyl_agent_core/src/terminal.rs:139-210 | Every command gets an id that none ever had |
| Terminals.Commands.Release | crates/kubyl_agent_core/src/terminal.rs:122-130 | Forgets exactly that command and kills it once; the others go on |
| Terminals.Commands.KillAll | crates/kubyl_agent_core/src/terminal.rs:132-136 | Every listed command is killed exactly once and none is left |
| AlertMerge.Merge | crates/kubyl_alerts_core/src/merge.rs:73-152 | The loop and the sort compute the list that the conservation theorem is about, with either source missing or both |
| AlertMerge.Find | crates/kubyl_alerts_core/src/merge.rs:73-152 | Finds the first entry with the same name whose labels include the alert's |
| AlertMerge.MergeConserves | crates/kubyl_alerts_core/src/merge.rs:73-152 | The output is ordered and holds, each once and nothing else, the unfiltered ones among: every Alertmanager alert with only value and time changed; one entry each, in order, for exactly the named Prometheus alerts that are pending or that no Alertmanager alert stands for and no earlier one covers. Every named one is covered by an entry with its name whose labels include its labels. Each entry shows the value of the last alert it was chosen for, and the first time known |
| MergeWords.MergeExactly | crates/kubyl_alerts_core/src/merge.rs:73-152 | The same in plain words, naming no part of the computation: which alerts show another, which include another, what is filtered, and the order |
| MergeWords.EntryExactly | crates/kubyl_alerts_core/src/merge.rs:104-140 | The entry of a Prometheus alert of its own: its name and labels, its state, the wait of its rule and the rest |
| MergeWords.OrderExactly | crates/kubyl_alerts_core/src/merge.rs:168-177 | One alert may stand before another exactly by severity, then by the time it began, an unknown one first, then by name and fingerprint |
| AlertMerge.SortOrders | crates/kubyl_alerts_core/src/merge.rs:168-177 | The sort orders by severity, time, name and fingerprint, and permutes |
| AlertMerge.OwnEntriesExactly | crates/kubyl_alerts_core/src/merge.rs:93-102 | A Prometheus alert gets its own entry if and only if it has a name and is pending, or no Alertmanager alert stands for it and no earlier Prometheus alert covers it |
| AlertMerge.LooksPendingExactly | crates/kubyl_alerts_core/src/merge.rs:93-102 | The entry that shows a firing alert in the end is pending if and only if the first Alertmanager alert that stands for it is, or none does and the first earlier Prometheus alert that covers it is pending |
| AlertMerge.EntriesShowTheirAlerts | crates/kubyl_alerts_core/src/merge.rs:93-102 | Every entry shows the value of the last Prometheus alert it was chosen for, its own value only if there is none, and its own time or the first one known of those alerts |
| AlertMerge.BuiltCovers | crates/kubyl_alerts_core/src/merge.rs:73-152 | Every Prometheus alert with a name has an entry that stands for it, through all later refreshes |
| AlertMerge.FiringCanLookPending | crates/kubyl_alerts_core/src/merge.rs:73-152 | Two alerts for which the firing one has no entry but that of the pending one |
| Remembered.KeptAreTheMostRecent | crates/kubyl_agent_core/src/settings.rs:127-141 | For every history of remember and forget: at most 30 threads, none twice, a front of the unbounded list |
| Remembered.FirstThirtyAreKept | crates/kubyl_agent_core/src/settings.rs:131-136 | For every history of remember: exactly the first 30 of the unbounded list, the most recent first |
| Remembered.KeptAreInOrder | crates/kubyl_agent_core/src/settings.rs:127-141 | For every history: each thread kept was remembered and not forgotten since, and they stand in the order of when they last were, the latest first |
| Remembered.AllAreThere | crates/kubyl_agent_core/src/settings.rs:127-141 | Without the bound, every thread remembered and not forgotten since is there |
| Remembered.AgentState.Remember | crates/kubyl_agent_core/src/settings.rs:131-136 | The list in place becomes the thread, the others without it, cut at 30 |
| Remembered.AgentState.Forget | crates/kubyl_agent_core/src/settings.rs:138-141 | Drops exactly that thread |
| Remembered.AgentState.Apply | crates/kubyl_agent_core/src/settings.rs:127-141 | Whatever history the object goes through, its list is the one the theorems are about |
| UpdateWorld.RoundTrip | script/updates-dev/fake_ocp.py:303-317 | What a restart reads is the version, history and update that was written |
| UpdateWorld.VersionSurvivesExactly | script/updates-dev/fake_ocp.py:303-317 | The version survives a restart if and only if no update is under way or it is that of the newest entry (of the target, when there is none) |
| UpdateWorld.EmptyHistoryLosesTheVersion | script/updates-dev/fake_ocp.py:303-317 | A world whose version a restart does not recover |
| UpdateWorld.Simulator.Play | script/updates-dev/fake_ocp.py:625-644 | The loop shows the stages from the given one on, in order, and then the end, with one more entry |
| UpdateWorld.Simulator.Follow | script/updates-dev/fake_ocp.py:709-747 | A half-way update is finished from its next stage, with its own target, start and risks; else an accepted request is played, or the refusal shown |
| UpdateWorld.StartsExactly | script/updates-dev/fake_ocp.py:654-706 | An update starts if and only if a known other version is asked for and it is forced, or the gate does not hold it and it is recommended or all its risks are accepted |
| UpdateWorld.RefusesExactly | script/updates-dev/fake_ocp.py:654-706 | A request is refused if and only if one is made, not for the present version, and it does not start |
| UpdateWorld.StartsInWords | script/updates-dev/fake_ocp.py:654-706 | The same with every condition written out: which versions are known, how one is asked for, when the gate holds it |
| UpdateWorld.ReasonsInWords | script/updates-dev/fake_ocp.py:654-706 | Each reason of a refusal, and each reason to go ahead all the same, is given if and only if its condition, in plain words, holds |
| UpdateWorld.StagesInWords | script/updates-dev/fake_ocp.py:625-644 | What the cluster shows of an update, write by write: 12, 61 and 89 percent with the unfinished entry on top, and then that entry completed |
| UpdateWorld.ResumesInWords | script/updates-dev/fake_ocp.py:709-747 | After a restart at any stage: what is read, and that the next write is of the stage after it |
| UpdateWorld.ForceSkipsTheGate | script/updates-dev/fake_ocp.py:654-706 | A forced update that the admin gate should hold starts |
| UpdateWorld.InterruptionsDoNotShow | script/updates-dev/fake_ocp.py:709-747 | Through any restarts between any two writes: the update keeps origin, target, start and risks, progress never falls, and when it ended the history has exactly one more entry, completed, for that target |
| UpdateWorld.PlayAdvances | script/updates-dev/fake_ocp.py:625-644 | Each write of a play follows from the one before as a restart there would go on |
| UpdateWorld.RestartAdvances | script/updates-dev/fake_ocp.py:709-747 | So does the first write after a restart |
| UpdateWorld.EveryWorldIsSane | script/updates-dev/fake_ocp.py:303-317 | In every state reached from a fixed stage the version is that of the newest completed entry and an update starts from it |
| UpdateWorld.FixedWorldsAreSane | script/updates-dev/fake_ocp.py:289-300 | The fixed stages are such states |

## Left out

- AgentTurns.OnePromptAtATime: asks for considerate openings and sign-ins, new prompt ids and ends of
  prompts under way; the first is exact (see `AgentReopen`), the other two the connection guarantees, and
  `StackResults.WorkHasOnePromptOut` does without them.
- StackResults.WorkHasOnePromptOut: asks for considerate openings and sign-ins, for the same reason.
- AgentWires.ClosedLeavesNoRequest: asks that calls come over the connection they name, which the stack
  guarantees.
- Shell.CommandLineRoundTrip: asks that the command itself splits into words, as the code passes it on
  unquoted.
- Matchers.FormatRoundTrip: takes letters and digits as any set without `{`, and whether a regex compiles
  as any predicate.
- Policy.Covers: the warnings in a command line are a flag that comes with the request, not the patterns.
- AgentAuthority.EveryCommandStandsOnAnAnswer: what taking secrets out leaves of an environment value
  comes with the value; how that is found is not modelled. Other redaction is left out.
- That something eventually happens: nothing is said about scheduling or fairness, only about what holds
  in every state and after every run.
- Updates that do not change the entries of a transcript: plan, mode, settings, usage and title.
- `set_mode`, `set_config`, refreshing the watched terminals, and display details such as texts of
  messages, icons and diffs.
- Remembering a thread after a turn and opening a link in a browser: effects outside the state.
- What the connection makes of a prompt: its first-prompt note and the form of its chips.
- What a tool call of Kubyl's own shows in the transcript besides its id, title, kind and status.
- The checks of file paths (`inside`, `resolved`): they read the disk. What they find comes with the
  request; reading and writing files is work that ends well or not.
- `windows_command_line`: it does not escape backslashes before a quote, so no round trip holds.
- Regex matching, `matches` and `validate_silence` of matchers.
- `heartbeat` and the severity order of options, which compute small values from one alert.
- The scopes of sessions in `acp.rs`: what they allow comes with the request.
- The items of a batch are heard one by one, as the code does; nothing is claimed about batches as such.
- Reading lines, their length limit, and parsing JSON: a line is a message or none.
- Counters are unbounded integers; the code's are 64 bits wide.
- Rule durations are integers, and timestamps do not overflow.
- `offers`, `co_state`, `machine_state` and `mcp_status` of the simulator, and its cluster calls;
  `apply_world` is one write.
- A reader of standard error decodes each read on its own; only what is kept of the decoded text is
  modelled.
