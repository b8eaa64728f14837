# Verification of the lamport actor runtime

This project models the core of lamport, an actor runtime in the style of OTP, and proves what its
state machines keep. `dafny verify dfyconfig.toml` checks everything.

## What is modelled

* **Local runtime** (`LocalState`, `LocalCascade`, `LocalCauses`, `LocalReach`, `LocalBooks`, `LocalSteps`,
  `LocalTurns`, `LocalRuntime`). One object with the table of actors, the run queue, the trackers of
  managed shutdowns, the armed timers and call timeouts, and the event log. The mutually recursive exit cascade is
  written as in the program, over the shrinking table. `LocalState.Evolves` says what any cascade may
  do, `LocalCauses.CausesFollow` why each ends or survives and what is logged, `LocalReach.ExactCascade`
  what a plain one does exactly. `LocalBooks.Sound` holds between driver
  steps and `Driving` during a turn, when the running actor is out of the table.
* **Supervisor** (`SupervisorState`, `Supervisor`, `RestartIntensity`). The books of running children
  and the restart and shutdown plans that are carried across turns. User callbacks and the context
  answer arbitrarily; ids they hand out are new. What they are asked is recorded by them alone.
* **Concurrent runtime** (`ConcurrentRelations`, `ConcurrentNotices`, `ConcurrentRuntime`, `Worker`). Each lock section, each
  notification and each wait is one atomic step. A finalizer's remaining work is part of the state, so
  any interleaving is a sequence of steps. `ConcurrentRuntime.FinalizeActor` is the finalizer itself,
  with arbitrary sections of other tasks between its own.
* **Upgrade** (`UpgradePlan`, `UpgradeRun`). Planning over a supervision forest, and the transaction that
  carries a plan out while actors may end; the messages it sends are recorded by the runtime underneath alone.
* **Parts** (`Types`, `Mailbox`, `Receive`, `ActorIds`, `Registry`, `Identity`, `EventLog`,
  `ExitSignals`). Bounded mailboxes, the receive rules, slots and generations, names, the event log and
  the classification of exits.

A world or shared state is a plain value with step functions; the classes hold the same data in fields,
and each of their methods is tied to such a function or to a relation between the two states.

*The plain case* of a cascade means: termination hooks do not panic, each mailbox has room for one notice
per link and per monitor, and nobody reachable in a cascade that runs under Kill has a requested shutdown.
The reason itself is not restricted.

## Where the code and its promises part

* The documentation of the upgrade error says that an attempt is made to resume every suspended actor
  before it is returned. After a refused suspend the code resumes nobody, so this holds exactly if the
  first target was the one that refused (`UpgradeRuns.SecondTargetFull` is a case where it was not). After
  a refused resume nobody further is tried, so later it holds exactly if everyone live who comes after the
  one that refused had been tried (`UpgradeRuns.KeepsPromise`, `SecondTargetFullLater`).
* A reply that is refused has already cancelled the timeout of its call. Every other refused send leaves
  things as they were (`LocalSteps.RefusedSendIsHarmlessUnless`, `RefusedReplyLosesTheTimeout`).
* The exit of a child that is queued but not active makes a plan lose the active child
  (`SupervisorState.QueuedExitLosesTheActiveChild`). A shutdown plan keeps account of everyone, and a
  restart of everyone in its scope, exactly when the active child exits
  (`Supervisors.SupervisorActor.HandleChildExit`). A restart goes through exactly when nothing is refused
  and the exits come in the order of the requests (`RestartToTheEnd`), and a shutdown that is over has stopped with
  somebody running exactly when another child than the one it was waiting for exited (`ShutDownToTheEnd`).
* A concurrent spawn linked to a parent that has gone leaves a link that is never dropped
  (`ConcurrentRelations.LateChildKeepsDeadLink`, `EndedIsForgotten`); linked to an id that is spawned only
  later, it leaves a link on one side (`ParentSpawnedLater`). Links are symmetric exactly where neither
  happened (`RelationsAreMutual`).
* The restart count is cast to 32 bits before it is compared (`RestartWindow.CastWrapsAround`).

## Model

| member | source | states |
|---|---|---|
| ExitSignals.ClassifyExitSignal | src/internal/exit_signal.rs:10-20 | a linked signal kills exactly when its reason is Kill or the receiver does not trap and the reason is not Normal; only a trapping receiver is told; an unlinked signal kills only as Kill and is never ignored |
| ExitSignals.ShutdownLinkReason | src/internal/shutdown.rs:57-66 | a kill that was requested is never passed on to links as a kill; no other reason is changed |
| LocalReach.CascadeIsReachability | src/runtime/lifecycle.rs:71-306 | the exit cascade ends exactly the actors reachable from the root over links to actors that die of it; each with its reason; every survivor loses exactly its links and monitors to them and gets exactly one exit or down notice for each |
| LocalCascade.ReachIsLeast | src/runtime/lifecycle.rs:253-306 | the reachable set is the least set that holds the root and is closed under live links to actors that die |
| LocalCascade.ReachIsReachability | src/runtime/lifecycle.rs:253-306 | being in that least set is the same as being at the end of a chain of links along which everyone after the root dies |
| LocalRuntimes.LocalRuntime.ExitActor | src/runtime.rs:1050-1052 | an exit from the driver keeps the whole runtime sound and is one cascade: everyone else who ends has a cause, nobody who should end survives, and the log tells of each end; in the plain case exactly the actors reachable from it end |
| LocalRuntimes.LocalRuntime.ForceExit | src/runtime/lifecycle.rs:298-305 | ends a live actor under the reason given; everyone else who ends has a cause; nobody outside any closed set around it ends; an absent actor changes nothing |
| LocalRuntimes.LocalRuntime.FinishActor | src/runtime/lifecycle.rs:71-192 | ending one actor reads as one cascade, caused by it, over the table with the actor in it; the actor is recorded with its reason or its hook's panic, and each reference others hold on it leaves exactly one down event |
| LocalRuntimes.LocalRuntime.RemoveOutgoingMonitors | src/runtime/lifecycle.rs:194-208 | afterwards no live actor knows the ending actor as a watcher; nobody ends and nothing is logged |
| LocalRuntimes.LocalRuntime.NotifyIncomingMonitors | src/runtime/lifecycle.rs:210-251 | afterwards no live actor watches the ending actor; each reference leaves exactly one down event with this watcher, reference and reason, and was traded for one down message, or its watcher ended for want of room or was gone |
| LocalRuntimes.LocalRuntime.NotifyWatcher | src/runtime/lifecycle.rs:215-250 | one watcher: its reference is traded for one down message, or it ends for the overflow and takes along whom that takes; in either case exactly one down event is logged |
| LocalRuntimes.LocalRuntime.DetachLinksAndPropagate | src/runtime/lifecycle.rs:253-277 | afterwards no live actor is linked to the ending actor; whoever ended was told a reason to or had no room; in the plain case nobody is left who should have ended |
| LocalRuntimes.LocalRuntime.DetachOne | src/runtime/lifecycle.rs:259-276 | one link is dropped, and the linked actor ends, for the reason it was told or for the overflow, gets one exit message, or ignores it |
| LocalRuntimes.LocalRuntime.PropagateLinkExit | src/runtime/lifecycle.rs:279-296 | a link signal ends the target, is delivered to it as one message, or does nothing, by trap flag, reason and room; one that ends it for its reason or for want of room ends nobody outside a closed set around it; an absent target is ignored |
| LocalRuntimes.LocalRuntime.EnqueueRuntimeEnvelope | src/runtime.rs:1534-1547 | runtime mail is delivered, or its receiver ends for want of room with that as its reason, or there is no receiver |
| LocalRuntimes.LocalRuntime.CloseBooks | src/runtime/lifecycle.rs:134-191 | the last entries about an actor: completion of its shutdown, exit, crash report, recorded reason |
| LocalReach.EndIsExact | src/runtime/lifecycle.rs:71-306 | an actor that ends with all it sets off is one cascade, recorded under its reason or its hook's panic, and in the plain case exactly the reachable actors end |
| LocalRuntimes.LocalRuntime.Finish | src/runtime/lifecycle.rs:71-192 | a running actor that ends takes along, in the plain case, exactly those reachable from it in the table with itself back in it, whether or not its own hook panics |
| LocalState.EvolvesTransitive | src/runtime/lifecycle.rs:71-306 | two cascades in a row are one cascade: links, monitors, notices, mail, log and tables compose |
| LocalCauses.CascadeIsStable | src/runtime/lifecycle.rs:71-306 | in any cascade, plain or not, those who end are its roots and exactly those whom a link to one who ended told to end, or for whom the notices of those who ended are too much |
| LocalCauses.EveryEndLeadsBack | src/runtime/lifecycle.rs:71-306 | in any cascade whoever ends does so at the end of a chain of causes that begins with a root, each a link that told the recorded reason, or an exit or a named down message without room and the overflow as reason |
| LocalCauses.CausesTransitive | src/runtime/lifecycle.rs:71-306 | causes, survivors and log entries of two cascades in a row are those of one |
| LocalCauses.CausesClose | src/runtime/lifecycle.rs:134-191 | once everyone has been told, closing the books makes the ended actor the only one without a cause; one down event for each reference held on it, one crash report if it ended abnormally |
| LocalRuntimes.LocalRuntime.RunOnce | src/runtime.rs:1055-1073 | ingests what has arrived, one event after the other by its rule; then drives exactly the first actor of the run queue that is still there; when there is none every live actor is initialised and every default-receive actor has no mail, or while suspended none that it may handle; there was progress exactly if an actor was driven or an event counted |
| LocalTurns.EmptyQueueIsIdle | src/runtime.rs:1055-1073 | an empty run queue means that every live actor is initialised and, unless its own hook selects, has nothing it may take: no mail, or while suspended no system, exit or down message |
| LocalRuntimes.LocalRuntime.Run | src/runtime.rs:700-1073 | every sequence of spawns, sends, exits, shutdowns and steps with any handlers does, command by command, what each should; the runtime stays sound, history only grows, and an answered call never times out later |
| LocalRuntimes.LocalRuntime.Carry | src/runtime.rs:700-1073 | one command of the driver has exactly the effect of its kind |
| LocalRuntimes.LocalRuntime.DriveActor | src/runtime.rs:1664-1756 | a whole turn: takes exactly the envelope the receive rules select, never the timeout of an answered call; parks when nothing is selected; obeys the handler's requests in order; returns the actor or ends it for the right reason |
| LocalTurns.TurnIsReceiving | src/runtime.rs:1700-1730 | with the default receive a turn handles the entry that a plain receiver would, and leaves mailbox and suspension as that does |
| LocalRuntimes.LocalRuntime.Conclude | src/runtime.rs:1729-1755 | the actor ends for a panic, the exit it asked for or its own verdict, in that order, and otherwise returns to the table |
| LocalRuntimes.LocalRuntime.Handle | src/runtime.rs:459-625 | the requests of a handler take effect one after the other, each as its own rule says, on the table, the running actor and the history; the last exit asked for counts |
| LocalRuntimes.LocalRuntime.Obey | src/runtime.rs:459-625 | each kind of request has exactly its effect on the table, the running actor and the exit it asks for |
| LocalRuntimes.LocalRuntime.RunInit | src/runtime/lifecycle.rs:17-55 | a failing or panicking first hook ends the actor; otherwise it is initialised and returns or ends as asked |
| LocalRuntimes.LocalRuntime.ReturnActor | src/runtime/lifecycle.rs:57-69 | back in the table parked when there is no mail and scheduled otherwise, so that the runtime is sound again |
| LocalRuntimes.LocalRuntime.EnqueueActorEnvelope | src/runtime.rs:1510-1532 | any send: a reply first withdraws its call's timeout; then the envelope is queued and the actor scheduled, or refused |
| LocalRuntimes.LocalRuntime.CancelCallTimeout | src/runtime.rs:1903-1934 | withdraws the timer of one call and the first queued timeout for it, and nothing else |
| LocalRuntimes.LocalRuntime.SendEnvelope | src/runtime.rs:882-888 | a send from outside keeps everything sound, and remembers the reply it delivered |
| LocalRuntimes.LocalRuntime.SendTo | src/runtime.rs:263-273 | a send from a turn: to oneself straight into the mailbox, to others like any send |
| LocalRuntimes.LocalRuntime.Ask | src/runtime.rs:498-514 | a call gets a reference never used before; the request goes to the callee, or into the own mailbox, as any send does; a timeout is armed exactly if one is wanted and the request was accepted |
| LocalRuntimes.LocalRuntime.ScheduleAfter | src/runtime.rs:568-572 | a timer of the running actor is set, anew if it was set already |
| LocalRuntimes.LocalRuntime.StopTimer | src/runtime.rs:574-576 | a timer is stopped, and reported stopped, exactly if it was set |
| LocalRuntimes.LocalRuntime.LinkTo | src/runtime.rs:350-365 | a link is made on both sides or refused |
| LocalRuntimes.LocalRuntime.UnlinkFrom | src/runtime.rs:367-382 | a link is undone on both sides or refused |
| LocalTurns.LinkKeepsDriving | src/runtime.rs:350-365 | linking keeps links symmetric and monitors paired among all actors, the running one included |
| LocalTurns.UnlinkKeepsDriving | src/runtime.rs:367-382 | so does unlinking |
| LocalTurns.UnlinkUndoesLink | src/runtime.rs:350-365 | before a link neither side mentions the other, after it both do, and unlinking leaves no trace of it; otherwise it is refused for the right reason and changes nothing |
| LocalTurns.LinkUndoesUnlink | src/runtime.rs:367-382 | before an unlink both sides mention the other, after it neither does, and linking anew restores it; otherwise it is refused and changes nothing |
| LocalRuntimes.LocalRuntime.MonitorTarget | src/runtime.rs:384-411 | a fresh reference is recorded on both sides; a target that is gone is answered at once with a down message or, without room, with an exit |
| LocalTurns.MonitorKeepsDriving | src/runtime.rs:384-411 | monitoring keeps monitors paired, oneself included |
| LocalTurns.DemonitorUndoesMonitor | src/runtime.rs:384-428 | a monitor on an actor that is there is held by both, and demonitoring leaves no trace of it; one on an actor that is not is answered by one message, or without room by the end of the turn |
| LocalRuntimes.LocalRuntime.DemonitorTarget | src/runtime.rs:413-428 | the reference disappears on both sides; an unknown one is refused |
| LocalTurns.DemonitorKeepsDriving | src/runtime.rs:413-428 | demonitoring keeps monitors paired, even when the target has ended meanwhile |
| LocalTurns.DemonitorForgets | src/runtime.rs:413-428 | after demonitoring nobody holds the reference, and nothing else has changed; an unknown one changes nothing |
| LocalRuntimes.LocalRuntime.EnqueueSelf | src/runtime.rs:296-304 | runtime mail to the running actor: queued, or the turn ends it |
| LocalRuntimes.LocalRuntime.HandleCurrentExitSignal | src/runtime.rs:306-314 | a signal to the running actor ends its turn for the reason of the signal, is ignored, or is queued; without room for it the turn ends for that, and nothing else changes |
| LocalRuntimes.LocalRuntime.SpawnFromTurn | src/runtime.rs:316-348 | a child enters under a fresh id, linked to its parent on both sides if asked; a refused one leaves only its used id |
| LocalRuntimes.LocalRuntime.SpawnActor | src/runtime.rs:1549-1586 | an admitted actor enters the table scheduled and known to nobody |
| LocalTurns.InsertKeeps | src/runtime.rs:1549-1586 | a newborn under a fresh id disturbs no relation, no timeout and no log |
| LocalTurns.NewbornHasItsOptions | src/runtime.rs:1549-1586 | a newborn has the options asked for, an empty mailbox that takes any envelope, and waits for its first hook |
| LocalTurns.TakeForTurn | src/runtime.rs:1062-1070 | taking the head of the run queue out of the table leaves everyone else scheduled as before |
| LocalRuntimes.LocalRuntime.IngestEvent | src/runtime.rs:1813-1860 | a timer or call timeout is delivered only while set, and a call timeout to a live actor at most once per call and never after an answer; mail without room ends its receiver for that reason; an expired shutdown is logged and ends exactly those reachable from the actor in the plain case; stale events change nothing |
| LocalRuntimes.LocalRuntime.DrainEvents | src/runtime.rs:1788-1796 | all events that have arrived are ingested in order; whether any counted is reported |
| LocalRuntimes.LocalRuntime.FireShutdownTimeout | src/runtime.rs:1844-1859 | the expiry is logged under the tracked request and the actor is killed; in the plain case exactly those reachable from it end, under Shutdown |
| LocalSteps.FireKeepsSound | src/runtime.rs:1829-1843 | an armed timeout has never fired and its call has not been answered; firing disarms it |
| LocalTurns.ReplyExcludesTimeout | src/runtime.rs:1510-1532 | once a reply has been accepted, its call's timeout is neither armed nor queued nor delivered at any later time |
| LocalTurns.TimesOutOnce | src/runtime.rs:1768-1778 | no call times out twice; an armed call has not timed out |
| LocalSteps.RefusedReplyStillDisarms | src/runtime.rs:1510-1532 | a reply refused for want of room has nevertheless withdrawn the timeout of its call |
| LocalSteps.RefusedSendIsHarmlessUnless | src/runtime.rs:1510-1532 | a refused send changes nothing, exactly unless it is a reply to a call whose timeout is armed, or queued at a live caller |
| LocalSteps.RefusedReplyLosesTheTimeout | src/runtime.rs:1510-1532 | in a sound state with a full mailbox and an armed timeout the reply is refused and the timeout is gone |
| LocalRuntimes.LocalRuntime.RequestShutdown | src/runtime.rs:1605-1662 | the request replaces any earlier one and is logged; a trapping actor with room gets the signal as one message; any other ends at once, by the kill, for want of room, or by the signal, and in the plain case exactly those reachable from it end with it |
| LocalRuntimes.LocalRuntime.ShutdownFromOutside | src/runtime.rs:900-906 | the same from the driver, keeping the runtime sound; an absent actor is refused |
| LocalRuntimes.LocalRuntime.ShutdownFromTurn | src/runtime.rs:602-624 | the same from a turn, with the same effect on the table; a linked actor that ended at once is dropped from the links and its end is then signalled to the running actor |
| LocalTurns.ShutdownLogGrammar | src/runtime.rs:1605-1662 | shutdown events of one actor: requests, then at most one timeout, then one completion exactly when the actor has ended, for the requester and policy of the last request; a live actor is tracked exactly when it was requested |
| LocalTurns.KillIsPassedOnAsShutdown | src/runtime/lifecycle.rs:122-136 | a managed kill reaches links as Shutdown and watchers as Kill |
| Mailboxes.Mailbox.WithLimits | src/mailbox.rs:66-76 | capacity is at least one and the reserve smaller than it |
| Mailboxes.NewMailboxAccepts | src/mailbox.rs:66-76 | whatever limits are asked for, a new mailbox is in order and accepts any envelope |
| Mailboxes.Mailbox.TryPush | src/mailbox.rs:111-120 | refuses an envelope exactly when its class has no slot left, and otherwise appends it under the next number |
| Mailboxes.Mailbox.PopFront | src/mailbox.rs:123-125 | takes the oldest entry |
| Mailboxes.Mailbox.RemoveFirstMatching | src/mailbox.rs:163-169 | takes exactly the first match, if there is one |
| Mailboxes.Mailbox.SelectiveReceiveAfter | src/mailbox.rs:136-147 | takes exactly the first match at or after the watermark |
| Mailboxes.RunKeepsValid | src/mailbox.rs:104-182 | over any run numbers stay strictly increasing, the length within the capacity, and user and request envelopes within the capacity less the reserve |
| Mailboxes.AdmissionByClass | src/mailbox.rs:104-120 | user and request envelopes are accepted as long as the queue is shorter than the capacity less the reserve, all others until it is full |
| Mailboxes.ReserveIsKept | src/mailbox.rs:104-120 | user mail never uses up the reserve: after any amount of it as many messages of the runtime still go in as are reserved |
| Mailboxes.RunRefinesLedger | src/mailbox.rs:104-182 | over any run the mailbox is what was accepted less what was taken: nothing is lost, duplicated, renumbered or reordered |
| Mailboxes.ReceiveAfterWatermark | src/mailbox.rs:99-147 | a receive behind an earlier watermark never takes what was queued before it, takes the first later match and leaves all else in order |
| Receiving.LanesAreFifo | src/runtime.rs:2130-2141 | over any run an actor with the default receive sees system, signal and other mail each in order of acceptance, and no other mail while suspended |
| Receiving.ControlMailFirst | src/runtime.rs:2130-2141 | a pending system message overtakes everything |
| Receiving.NothingToTake | src/runtime.rs:2130-2141 | the default receive finds nothing exactly when nothing it may take is queued |
| Receiving.TakesExactly | src/runtime.rs:2130-2141 | the default receive takes the oldest system message, then the oldest envelope; while suspended the oldest system, exit or down message; nothing only if nothing may be taken |
| Receiving.SelectiveTakesExactly | src/runtime.rs:2143-2174 | a selective receive takes the oldest system, exit or down message, and without one the oldest other envelope at or after the watermark that the predicate accepts; while suspended only the former |
| Receiving.SuspensionFollows | src/runtime.rs:2176-2190 | over any run an actor is suspended exactly by the last Suspend or Resume it has handled, and each envelope was handled in the state its predecessors left |
| Receiving.TakeFirstIsReceive | src/runtime.rs:517-660 | whatever receives a selection hook tries, it gets at most one envelope, and the mailbox loses exactly that one |
| Receiving.FirstHitDecides | src/runtime.rs:517-660 | of the receives a selection hook tries, the first that finds anything decides; the others leave no trace |
| ActorIds.ActorSlotAllocator.Allocate | src/internal/id.rs:12-25 | reuses the slot freed last or opens a new one, under that slot's present generation |
| ActorIds.ActorSlotAllocator.Release | src/internal/id.rs:27-38 | frees the slot under the next generation; an unknown or stale id is ignored |
| ActorIds.AllocateIsFresh | src/internal/id.rs:12-25 | an allocated id was never handed out before |
| ActorIds.LastFreedIsReused | src/internal/id.rs:12-38 | the slot freed last is the next to be handed out, under the next generation |
| ActorIds.OpensSlotOnlyIfNoneIsFree | src/internal/id.rs:12-25 | a new slot is opened exactly if none is free |
| ActorIds.ReleaseRetires | src/internal/id.rs:27-38 | a released id is never held again, and its slot's generation grows |
| ActorIds.ReleaseIsSafeUnless | src/internal/id.rs:27-38 | releasing an id breaks the free list exactly when it is the id a free slot will be given next |
| Registries.Registry.Register | src/registry.rs:45-67 | a name is given once, and an actor has one name; repeating one's own name is fine |
| Registries.Registry.Unregister | src/registry.rs:70-74 | the actor's name is freed and returned |
| Registries.RegisterResolves | src/registry.rs:45-67 | the two indexes stay inverse, and the name resolves to the actor exactly when it was not refused |
| Registries.UnregisterUndoes | src/registry.rs:70-74 | unregistering undoes a registration |
| Identity.Directory.Spawn | src/runtime.rs:796-803 | an id is allocated before admission is decided; a refused spawn keeps it |
| Identity.Directory.InsertActor | src/runtime.rs:1549-1586 | admits exactly below the limit and under a free name; live actors are counted exactly |
| Identity.Directory.TakeActor | src/runtime.rs:1588-1597 | only the exact id leaves the table |
| Identity.Directory.CompleteFinish | src/runtime/lifecycle.rs:187-191 | a finished id is completed, its slot released and the live count lowered |
| Identity.Directory.RegisterName | src/runtime.rs:1189-1199 | only an actor in the table is named, and the name then resolves to it |
| Identity.Directory.RetiredIdsNeverResolve | src/runtime.rs:1184-1215 | a completed or refused id resolves neither as id nor by name |
| Identity.RetiredStaysRetired | src/internal/id.rs:12-38 | once retired, an id is retired in every later state and never allocated again |
| Identity.Directory.Serve | src/runtime.rs:796-803 | over any history of spawns, turns, ends and namings each request does what it should; no id is handed out twice, every other new id was refused, and a retired id is neither handed out again nor resolves, by id or by name |
| Identity.Directory.Perform | src/runtime.rs:796-803 | one request has exactly the effect of its kind on slots, table, names and those in hand |
| EventLogs.EventLog.Record | src/runtime.rs:1471-1480 | events are numbered consecutively from one |
| EventLogs.EventsSince | src/observability/cursor.rs:3-10 | a poll returns exactly the events at or after the cursor and moves it past them |
| EventLogs.Interleave | src/observability/cursor.rs:3-10 | over any interleaving of appends and polls one cursor receives a gap-free, duplicate-free run of the log from its first position |
| EventLogs.FreshCursorSeesOnlyLater | src/runtime.rs:1136-1143 | a new cursor sees exactly what is appended later |
| RestartWindow.RestartIntensity.RecordRestart | src/supervisor.rs:512-516 | prunes, records, and permits as long as the count, cast to 32 bits, is within the intensity |
| RestartWindow.RestartIntensity.Prune | src/supervisor.rs:530-540 | drops the leading entries that are out of the period |
| RestartWindow.RestartIntensity.Reconfigure | src/supervisor.rs:525-528 | takes over new limits and prunes the same window by them |
| RestartWindow.WindowIsExact | src/supervisor.rs:511-546 | with a clock that does not go back the deque is exactly what was recorded within the last period |
| RestartWindow.NoWindowExceedsIntensity | src/supervisor.rs:511-546 | no closed window of one period holds more allowed restarts than the intensity, as long as the window never holds 2^32 entries |
| RestartWindow.RefusedExactly | src/supervisor.rs:512-516 | a restart is permitted exactly when the number in the last period, modulo 2^32, is within the intensity |
| RestartWindow.CastWrapsAround | src/supervisor.rs:515-515 | the cast matters: 2^32 restarts at one instant pass under an intensity of zero |
| SupervisorState.RestartScopeIsExact | src/supervisor.rs:468-489 | the restart scope is, in declared order, the failed child, all children, or the failed child and all declared after it |
| SupervisorState.DeclaredAscends | src/supervisor/state.rs:73-79 | the requested children come out in declared order, each once |
| SupervisorState.BackwardDescends | src/supervisor/state.rs:81-102 | the running children come out in reverse declared order, each once |
| Supervisors.SupervisorActor.StartChild | src/supervisor.rs:400-425 | a child counts as started only if it is declared, not running, and the actor spawned last; its id was never handed out before; otherwise nothing changes |
| Supervisors.SupervisorActor.ForgetChildActor | src/supervisor/state.rs:67-71 | both maps drop the child, and stay inverse |
| Supervisors.SupervisorActor.BeginShutdown | src/supervisor.rs:342-356 | asks the running children in reverse declared order, each under the id it runs as and the policy of its spec; keeps the given reason; stops at once only with nobody running |
| Supervisors.SupervisorActor.AdvanceShutdown | src/supervisor.rs:358-371 | goes on to the next child of the plan, asked under its own id and policy, and touches nobody outside it; with everyone else accounted for it stops only with nobody running |
| Supervisors.SupervisorActor.RequestShutdown | src/supervisor.rs:373-398 | asks the active child, that is, the actor it runs as under the policy of its spec; one that is gone or cannot be asked counts as down; order, reason, requests and account are kept |
| Supervisors.SupervisorActor.Ask | src/supervisor.rs:373-398 | the one request made is to the actor the child runs as, under the policy of its spec; a child that cannot be asked is forgotten |
| Supervisors.SupervisorActor.BeginRestart | src/supervisor.rs:221-267 | nothing to restart changes nothing; otherwise the scope is the requested children in declared order and exactly one permit is asked for; refused, the supervisor goes down for the exceeded intensity; without a refusal the last declared of those running is asked under its id and policy, or, if none runs, all are started; the restart has account of its scope exactly if nothing was refused |
| Supervisors.SupervisorActor.AdvanceRestart | src/supervisor.rs:269-289 | a planned child moves the restart on: without a refusal exactly the next child is asked under its id and policy, or, with everyone in scope down, the replacements are started; an unplanned child brings the supervisor down with that as the reason |
| Supervisors.SupervisorActor.RequestRestartShutdown | src/supervisor.rs:291-316 | makes one request, to the actor the active child runs as under the policy of its spec; granted, the supervisor waits for that child and nothing else changes; refused, it goes down |
| Supervisors.SupervisorActor.FinishRestart | src/supervisor.rs:318-340 | completes exactly if everyone in scope is down and no start fails; then every child of the scope was started in declared order, with its own spec, under fresh ids, and nobody else was touched; otherwise the supervisor goes down naming a child of the scope |
| Supervisors.SupervisorActor.StartAll | src/supervisor.rs:318-340 | the replacements are started one by one in declared order, each with its own spec, up to one that does not start |
| Supervisors.SupervisorActor.HandleExit | src/supervisor.rs:174-187 | a child's exit moves the pending plan; any other exit takes the supervisor down unless it is already going down; a restart that is no longer pending has gone through or given way to a shutdown; books and plan stay valid |
| Supervisors.SupervisorActor.HandleChildExit | src/supervisor.rs:189-219 | a shutdown plan keeps its reason and order, and account of everyone exactly when the exiting child is the active one; who was in no plan stays in none; a restart keeps account of its scope exactly if it had it, the exiting child is the active one and nothing is refused |
| Supervisors.SupervisorActor.DecideOnExit | src/supervisor.rs:201-217 | with no plan pending user code is told of exactly this child, actor and reason, and its directive decides: nothing, a restart of exactly the listed children, or a shutdown with the given reason; a missing spec is a shutdown of which user code hears nothing |
| Supervisors.SupervisorActor.Init | src/supervisor.rs:118-131 | starts all declared children in order, each with its own spec; succeeds only with distinct ids and everyone running; on failure asks those running to be killed, in reverse order |
| Supervisors.SupervisorActor.AbortStartup | src/supervisor.rs:427-434 | every running child, that is, the actor it runs as, is asked to be killed, in reverse declared order |
| Supervisors.SupervisorActor.ShutdownCallback | src/supervisor.rs:140-142 | a requested shutdown begins an orderly one, whatever was going on |
| Supervisors.SupervisorActor.CodeChange | src/supervisor.rs:148-170 | new specs are taken over exactly when no plan is pending, the hook agrees and the child ids are the same in the same order; books stay valid |
| Supervisors.SupervisorActor.Serve | src/supervisor.rs:148-425 | any sequence of exit signals, requested shutdowns and code changes is handled one after the other until the supervisor stops; the two maps stay inverse, all ids declared in the order they had, and the plan in order |
| Supervisors.SupervisorActor.ShutDownInOrder | src/supervisor.rs:342-398 | if exits arrive for the active child, every child is asked, under the id it ran as and its own policy, in exactly reverse declared order, and the supervisor stops with the given reason and nobody running |
| Supervisors.SupervisorActor.ShutDownToTheEnd | src/supervisor.rs:342-398 | over any exits in any order a shutdown keeps its reason and asks in reverse declared order, each under its own id and policy; it has account of everyone, and so stops with nobody running, exactly if no child exits but the one it waits for |
| Supervisors.SupervisorActor.RestartToTheEnd | src/supervisor.rs:221-340 | a restart goes through exactly if nothing is refused and the first exits are those of the children to be replaced, one after the other in the order asked; it still waits exactly if all exits so far came so; one that went through leaves the supervisor running with no plan, every child outside the scope under the id it had, and the scope replaced in order under ids never handed out before |
| SupervisorState.AtMostOneOutstanding | src/supervisor/state.rs:153-172 | while the plan accounts for everyone running, only the active child has been asked and not yet ended |
| SupervisorState.LostChild | src/supervisor/state.rs:168-172 | a running child that is in no plan stays in none, and the plan is out of control |
| SupervisorState.QueuedExitLosesTheActiveChild | src/supervisor/state.rs:153-172 | the exit of any queued child takes the active slot from a child that is still running, and from then on that child is in no plan |
| SupervisorState.ExitDuringRestart | src/supervisor/state.rs:127-150 | the exit of a child the restart knows leaves account of everyone in scope exactly if there was one and the child was the active one |
| SupervisorState.SameIdsKeepTidy | src/supervisor/state.rs:104-120 | specs with the same ids in the same order keep the books |
| ConcurrentRelations.RunKeepsInv | src/concurrent/lifecycle.rs:32-220 | over any interleaving of the lock sections every reference and every link stays where the rules put it |
| ConcurrentRelations.RelationsAreMutual | src/concurrent.rs:912-1034 | at every lock release monitors are paired among live records, and two live records are linked on both sides or neither exactly unless one was born linked to the other before that was in the table |
| ConcurrentRelations.LinksStayMutual | src/concurrent.rs:285-350 | if every parent named at a spawn had been spawned before, links among live records are symmetric after every run |
| ConcurrentRelations.ParentSpawnedLater | src/concurrent.rs:311-327 | a child that names its parent before that is spawned ends up with a link its parent does not know |
| ConcurrentNotices.CapturedIsToldOnce | src/concurrent/lifecycle.rs:163-193 | a reference held by another watcher when its target's record was removed leads to at most one down message, which goes to that watcher and names the target and its final reason; by the end of the finalizer it has, unless the watcher is gone or had no room and was told to end for that |
| ConcurrentNotices.CapturedLinkIsSignalledOnce | src/concurrent/lifecycle.rs:195-217 | every captured link leads to at most one exit message, with the reason passed on to links; by the end its signal has come to the message, a forced exit for that reason, nothing for Normal, or the end of a peer without room, unless the peer was not there |
| ConcurrentNotices.SignalForcesTheDying | src/concurrent/lifecycle.rs:11-30 | a signal that is read and acted on at once forces an exit on exactly a live peer that should die of it, and is delivered to exactly a live peer that is to be told and has room; one without room is forced to end for that |
| ConcurrentNotices.WatcherIsToldOrEnds | src/concurrent/lifecycle.rs:163-193 | a live watcher with room gets one down message with the final reason; one without is forced to end for the overflow; nobody else is touched |
| ConcurrentNotices.RunKeepsSound | src/concurrent/lifecycle.rs:11-220 | over any interleaving every notice in a mailbox is the one its reference or link led to, with the right reason, and every answer that was not delivered has its excuse |
| ConcurrentNotices.ApplyKeepsAnswer | src/concurrent/lifecycle.rs:163-193 | whatever a reference led to is final |
| ConcurrentNotices.RemoveCaptures | src/concurrent/lifecycle.rs:38-150 | removing a record captures every reference others hold on it, with the final reason, and every link |
| ConcurrentRelations.EndedIsForgotten | src/concurrent/lifecycle.rs:32-220 | once its finalizer has ended, an actor is mentioned by a live record exactly if that was born linked to it when it was not in the table, and then only as a link |
| ConcurrentRelations.LateChildKeepsDeadLink | src/concurrent.rs:311-327 | a child linked to a parent that is gone at its birth is born with a link to nobody, and keeps it over every later run as long as it lives |
| ConcurrentRelations.RemoveKeepsInv | src/concurrent/lifecycle.rs:38-150 | removing a record keeps all of it |
| ConcurrentRelations.SpawnKeepsInv | src/concurrent.rs:285-350 | so does inserting one |
| ConcurrentRuntimes.RuntimeShared.FinalizeActor | src/concurrent/lifecycle.rs:32-220 | with any lock sections of other tasks in between, each captured watcher has been told once, with the final reason, as it was found: the message exactly if it was there and had room; each captured link has been signalled once, as its peer was found, with the reason for links; the record and its finalizer are gone |
| ConcurrentRuntimes.RuntimeShared.TakeBackMonitors | src/concurrent/lifecycle.rs:152-161 | the ending actor's own monitors are taken back one lock section at a time |
| ConcurrentRuntimes.RuntimeShared.TellWatchers | src/concurrent/lifecycle.rs:163-193 | every watcher forgets its reference and is told in a later lock section, each once: it gets the message exactly if it was there and had room |
| ConcurrentRuntimes.RuntimeShared.TellWatcher | src/concurrent/lifecycle.rs:163-193 | one watcher: it forgets the reference under one lock; under a later one it is told, with the final reason, if it is there and has room; without room it is forced to end in a section after that |
| ConcurrentRuntimes.RuntimeShared.SignalLinks | src/concurrent/lifecycle.rs:195-217 | each link is dropped and, in later lock sections, signalled once, as its peer was found |
| ConcurrentRuntimes.RuntimeShared.PropagateLinkExit | src/concurrent/lifecycle.rs:11-30 | the trap flag is read in one lock section and what it decided is done in a later one: a forced exit, a delivery, or nothing; a peer without room for the notice is forced to end in a section after that; the captured link, not signalled before, has then been signalled |
| ConcurrentRuntimes.RuntimeShared.HandleOverflow | src/concurrent.rs:404-417 | a receiver without room for a notice is forced to end in a lock section of its own |
| ConcurrentRuntimes.RuntimeShared.LinkInner | src/concurrent.rs:912-941 | a link is made on both sides under one lock or refused |
| ConcurrentRuntimes.RuntimeShared.UnlinkInner | src/concurrent.rs:943-968 | a link is undone on both sides under one lock or refused |
| ConcurrentRuntimes.RuntimeShared.MonitorInner | src/concurrent.rs:970-1006 | a fresh reference is recorded on both sides; a target that is gone is answered at once with one message if there is room, and nothing is recorded |
| ConcurrentRuntimes.RuntimeShared.DemonitorInner | src/concurrent.rs:1008-1034 | the reference disappears on both sides |
| ConcurrentRuntimes.RuntimeShared.TrapExits | src/concurrent.rs:1189-1191 | sets the trap flag of the actor itself and nothing else |
| ConcurrentRuntimes.RuntimeShared.InsertActorRecord | src/concurrent.rs:285-350 | a record under a fresh id and its link to the parent appear under one lock, on both sides if the parent is in the table; one that is refused only uses its id up |
| Workers.ParkedMeansNothingToDo | src/concurrent/worker.rs:30-78 | in every interleaving a parked worker with no permit and no notification under way has no forced exit and nothing it may take; unless suspended its mailbox is empty |
| Workers.RunKeepsWakeups | src/concurrent/worker.rs:30-199 | over any interleaving, whatever the worker has looked past has a notification on its way |
| Workers.ForcedExitIsPrompt | src/concurrent/worker.rs:30-49 | after an exit has been forced at most one more turn begins |
| Workers.ExitEndsTheActor | src/concurrent/worker.rs:130-178 | when user code ends a turn or the first hook with an exit, the worker finishes with exactly that reason whatever else happens, and begins no further turn; only a failed first hook leaves the actor uninitialised |
| Workers.EndIsFinal | src/concurrent/worker.rs:25-49 | a worker that has begun to end keeps its reason, begins no turn and is finished after at most two more steps of its own, whatever else happens |
| Workers.GoingOnGoesOn | src/concurrent/worker.rs:130-198 | a turn that does not end with an exit does not end the actor |
| Workers.StatusTellsOfMail | src/concurrent/worker.rs:90-198 | after a turn or the first hook the status says whether mail is left, and the budget starts anew after a yield or when used up |
| Workers.RunKeepsStatus | src/concurrent/worker.rs:18-199 | over any interleaving the status fits the stage, and the record goes with the last step |
| Workers.ForcedReasonIsCarriedOut | src/concurrent/worker.rs:30-49 | a forced exit ends the worker under the reason of the last one forced before it is looked at, whatever else happens, unless it was ending already |
| Workers.RunKeepsOrder | src/concurrent/worker.rs:25-199 | over any interleaving the first hook is run before the first turn, and the budget stays within its limit |
| Workers.RunRefinesReceiver | src/concurrent/worker.rs:54-199 | over any interleaving the worker begins exactly the turns, on exactly the envelopes and in the order, that a plain receiver would with the same arrivals and withdrawals |
| Workers.LooksIdleExactly | src/concurrent.rs:263-268 | over every run an actor that looks idle has handled every envelope it accepted and that was not withdrawn, except for one exactly if it has claimed that and not begun the turn |
| Workers.RunConserves | src/concurrent/worker.rs:30-199 | over any interleaving what was accepted is in the mailbox, in hand, handled or withdrawn |
| Workers.LooksIdleWithEnvelopeInHand | src/concurrent/worker.rs:54-107 | and that happens to a newly spawned actor: an envelope that arrives before the worker has said that it waits is later claimed under the status Waiting |
| Workers.ActorTask.Interleave | src/concurrent/worker.rs:18-199 | the worker and its senders, changed in place step by step, do exactly what the steps say and never lose a wakeup |
| Workers.ActorTask.TakeForcedExit | src/concurrent/worker.rs:33-48 | a forced exit is taken out at the top of the loop and ends the worker |
| Workers.ActorTask.SelectEnvelope | src/concurrent/worker.rs:51-60 | takes what the receive rule gives, or goes to wait |
| Workers.ActorTask.BeginWait | src/concurrent/worker.rs:66-78 | a stored permit is used up, otherwise the worker parks |
| Workers.ActorTask.EndIteration | src/concurrent/worker.rs:180-198 | the status says whether mail is left; the budget starts anew after a yield or when used up |
| Workers.ActorTask.EnqueueEnvelope | src/concurrent.rs:384-402 | the record changes first, the notification comes later |
| Workers.ActorTask.RequestForceExit | src/concurrent.rs:419-435 | likewise for a forced exit |
| UpgradePlans.PlanLocalUpgrade | src/runtime.rs:1217-1241 | planning ends, and succeeds exactly for a live supervisor whose tree agrees with its specs; the plan lists exactly the actors of the tree, each once unless one runs in two slots, supervisors first in one order and last in the other, and resumes those that were not suspended |
| UpgradePlans.CollectTree | src/runtime.rs:1243-1383 | appends the subtree in preorder and in postorder, or fails exactly when a spec and its running child disagree |
| UpgradePlans.OrdersHaveNoDuplicates | src/runtime.rs:1243-1383 | with every actor in one slot, neither order lists an actor twice |
| UpgradePlans.SameMembers | src/runtime.rs:1243-1383 | both orders list the same actors |
| UpgradePlans.SupervisorsFirst | src/runtime.rs:1243-1383 | wherever a supervisor is listed, each of its children comes later in the one order and earlier in the other |
| UpgradePlans.SubtreeIsLeast | src/runtime.rs:1243-1383 | nobody is listed who is not below the root |
| UpgradePlans.SnapshotsHaveOrder | src/runtime.rs:316-348 | whatever is spawned, exits and ends, a table in which supervisors record the children they spawned has no cycle and nobody in two slots |
| UpgradePlans.ChangesTakeEffect | src/runtime.rs:316-348 | a child that is spawned runs in its slot, one that is cleared does not, one that ends is gone, and nothing else about the table has changed |
| UpgradeRuns.UpgradeRun.UpgradeSupervisorTree | src/runtime.rs:966-1037 | what the runtime underneath sees is exactly: a Suspend to each target in order, up to the first without room, and then nothing more; or all of them, a run until idle, the code change to the version asked for to each in order up to the first that fails, and a Resume to exactly the live targets in reverse order up to the first that refuses; success is reported exactly if all went through, and a failed code change reports exactly the part before the failing actor; the documented attempt to resume everyone suspended is made exactly if the first target was refused, or later if every live target after the first that refuses its resume was tried before it |
| UpgradeRuns.UpgradeRun.ResumeTargets | src/runtime.rs:1385-1409 | sends a Resume to exactly the live targets in reverse order up to the first that refuses, and nothing to anybody after it |
| UpgradeRuns.UpgradeRun.SuspendTargets | src/runtime.rs:972-987 | sends a Suspend to exactly the targets in order up to the first that refuses, and nothing to anybody after it |
| UpgradeRuns.UpgradeRun.CodeChangeActor | src/runtime.rs:992-1021 | asks one actor for the change to the version asked for and waits for its answer; it fails only if the actor refuses the message, or the hook does not run or fails |
| UpgradeRuns.AliveIsExact | src/runtime.rs:1391-1395 | those addressed are exactly the targets that are live |
| UpgradeRuns.RoundGoesThrough | src/runtime.rs:975-987 | with nobody addressed twice a round of control messages goes through exactly if everyone is live and has room for one, and fails at once exactly if the first has not |
| UpgradeRuns.SecondTargetFull | src/runtime.rs:975-987 | with two targets and the second full, the first stays suspended |
| UpgradeRuns.SecondTargetFullLater | src/runtime.rs:1391-1404 | with the same two at the end, the second refuses its resume and the first is not tried |
| UpgradeRuns.UpgradedIsClosedDownwards | src/runtime.rs:992-1021 | what a failed upgrade leaves upgraded contains the children of everyone in it |

## Left out

- Exactness of a Kill cascade that meets actors under managed shutdown: each of them passes the kill on as
  Shutdown, so who ends depends on the order of visits; what holds then is `LocalState.Evolves` and `LocalCauses.CascadeIsStable`.
- Order of iteration over links and monitors: any order is allowed, the program uses ascending ids.
- Termination hooks and selective receives that themselves call the context; a hook may only panic.
- A receive made from a first hook, and a selection hook that receives an envelope and then returns none.
- Call timeouts forged with a raw envelope; they are excluded wherever an envelope is sent.
- The delays of timers: one that is set may fire at any time, also for a setting before the last.
- The local table is keyed by id here; that slots and generations make this sound is proved in `Identity`.
- Admission and names inside the two runtime objects: whether a spawn is admitted is a parameter there, and
  decided by limit and name in `Identity`. The runtimes' own copy of supervisor bookkeeping is not modelled.
- ConcurrentRuntimes.RuntimeShared.PropagateLinkExit: whether a mailbox has room for a notice is arbitrary there, as in TellWatcher; mailboxes and wakeups
  of the concurrent runtime are in `Worker` for one actor at a time.
- The lifecycle events and crash reports of the concurrent runtime; those of the local one are modelled.
- Workers.ActorTask.Proceed: one actor with the default receive; selective receive, metrics and tracing are left out.
- Supervisors.SupervisorActor.StartChild: what user code does inside the callback besides spawning and returning is not modelled.
- RestartWindow.NoWindowExceedsIntensity: stated for windows of fewer than 2^32 entries, because the cast can make it false beyond (see CastWrapsAround).
- UpgradePlans.PlanLocalUpgrade: a table in which an actor is below itself is excluded by its order, since the program need not return on
  one; only an actor that misuses the bookkeeping hooks can bring it about (see SnapshotsHaveOrder).
- UpgradeRuns.UpgradeRun.CodeChangeActor: while a hook's answer is awaited anything may happen to the mailboxes; actors spawned meanwhile are left out, as no plan names them.
- Wrap-around of 64-bit counters (sequence numbers, references, generations).
- Texts of errors, crash reports, metrics, tracing, Prometheus export, actor trees and snapshots.
- Typed adapters, application boot, blocking pools and the Tokio runtime.
