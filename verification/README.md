# Verified model of trouve's agent backends

A Dafny model of the three stateful components of trouve's `trouve-agents`
crate, with proofs of what they promise.

**The Codex event router and turn ownership.** One app-server multiplexes the
events of many threads. The router delivers each event to the channel of the
turn that owns it, buffers it until ownership is known, or declines it.

- `CodexRouting` and `CodexOperations` say what each call does, as functions
  on the router's state and on the history its promises are about.
- `CodexRoutingState` is the router as the program updates it: a class with
  the program's maps, sets and queues, whose methods and loops are proved to
  do what those functions say.
- `CodexConservation`, `CodexInvariants`, `CodexInvariantSteps`,
  `CodexAttribution`, `CodexOrder`, `CodexRuns` and `CodexTheorems` prove what
  every step and every run keeps; `CodexPromises` states the results.
- `CodexLaws` has what else may be relied on: what a full buffer gives up,
  which requests are answered, when channels fall silent, what tombstones and
  announcements do.
- `CodexReplaySteps` and `CodexReplay` follow what a thread receives before its
  activation; `CodexForgottenLoss` has runs that lose it.
- `CodexLedger` (active and completed turns), `CodexLifecycle` (the weak
  registry of per-thread locks), `CodexTurnProtocol` (start, cancel, recover
  and interrupt against a vendor) with `CodexTurnOutcomes` (what becomes of the
  turns) and `CodexTopology` (collaborator parents) surround it.

**Managed-runtime activation.** `RuntimeDisk` is the visible filesystem
together with the names a crash could leave; `ManagedRuntime` runs activation,
capacity recovery, pruning, leasing and uninstall on it step by step, and
keeps the disk after every step on a trail; `InstallGuards` orders prepared
installs against uninstalls, `InstallCancellation` against cancellations.

**The Claude stdout router and process pool.** `ClaudeRouter` is the router,
one critical section at a time; `ClaudeIsolation` interleaves its loop with
registrations, prompts and lost consumers; `ClaudePrompts` is about prompts and
`ClaudeSignals` about the announcements of autonomous turns; `ClaudeLeak` has a
run that leaks; `ClaudePool` is the pool.

Verify with `dafny verify dfyconfig.toml`.

## How the outside world appears

- A channel accepts, is closed or is full, as an oracle decides at every send;
  once overloaded it refuses (`crates/trouve-agents/src/route.rs`).
- The order in which a hash map is walked, which flushes, renames, removals,
  cleanups and spawns succeed, when leases are released, who wins a `select!`,
  timeouts and idle times are nondeterministic.
- Vendor and thread ids are natural numbers, 0 standing for the empty id, and
  subscription generations do not wrap.
- Each channel is activated at most once, as `start_turn` does.
- The vendor runs a turn only after it was asked to, reports failures and
  completions truthfully, and has stopped a turn whose interruption it
  acknowledges. A written request may be acted on at any later time.
- A directory that was flushed is reachable after a crash. What was not
  flushed since it changed may be lost, damaged or restored by a crash.

## Where the code and its promises part

- A thread can have a subscription of its own that is not activated yet and be
  announced as a child of another root. The announcement takes its buffer:
  every event that its subscription received is stale for the announcer and is
  dropped, or declined if it is a request, and the record of what the size
  limit took goes with it. The activation of the thread then replays and marks
  nothing (`AnnouncementTakesAll`, on the runs of `LossIsForgotten`). An event
  that arrives after the announcement is lost the same way when the announcing
  root ends first (`OwnerEndForgets`). `StoredExactly` proves that nothing else
  takes such an event: it is there if and only if neither happened.
- `invalidate_prepared_installs` truncates the epoch before it writes the new
  one. A failure in between brings the empty initial epoch back. A completed
  uninstall has removed the stage of every earlier preparation, so this revives
  only one whose download was still in flight and wrote its stage again
  (`PublishesAfterUninstall`; `stage_codex_release_binary` creates the directory
  it writes to). `OutdatedPassesExactly` and `RevivableExactly` give the exact
  conditions.
- Uninstall does not flush what it removes. The names that a crash could leave
  before it can still be left after it, so it is safe in a crash if and only if
  there were none (`Uninstall`, `CrashSafeExactly`; `UninstallThenCrash` is a
  run). `installed` then reports nothing as long as the executable is gone.
- The comment on `StdoutRouter` promises that autonomous turns never leak into
  the next turn trouve starts. A first line that goes straight to an attached
  consumer is not recorded as a turn in flight, and the rest of that turn can
  leak (`LeakingRun`); `AttachedStartLeaks` and `ContainedExactly` say exactly
  when.
- The comment on `signal` promises that every buffered turn is announced again
  when it outlives its attached consumer. A live result ends the attachment, and
  the announcement of what is still buffered waits for its delivery; if that
  fails there is none (`ForgottenTurn`). `LeftBehindExactly` and
  `DeliveryDecides` say exactly when.
- A lifecycle entry can stay in the registry with nobody left to refer to it,
  because a waiter gave up or two releases overlap (`OverlapLeavesAnEntry`,
  `PrunedExactly`). The next acquirer replaces it, so exclusion is not affected.
- The rejections of owners whose route is missing or bound elsewhere, and the
  `OwnedByReplacement` recovery on an open transport, are dead code
  (`StepDeliversExactly`, `ReplacementUnreachable`).

## Model

| member | source | states |
|---|---|---|
| `CodexPromises.EveryEventOnce` | crates/trouve-agents/src/codex.rs:3337-3662 | After any run of arrivals, subscriptions, activations, removals and hand-overs, every message that arrived is in exactly one place, once: on a channel, in a buffer, declined, or dropped for a named reason; what did not arrive is nowhere. |
| `CodexPromises.RequestConservation` | crates/trouve-agents/src/codex.rs:3062-3662 | A request with a thread id is never dropped: it is on a channel, in a buffer or declined, exactly once. For each decline since the last hand-over that fits, in order, the queued response carries the id of that request, in the elicitation form exactly if it is an elicitation; the overload flag is up exactly when some did not fit. |
| `CodexPromises.AttributionSafety` | crates/trouve-agents/src/codex.rs:3346-3512 | Every event put on a channel is for its root and its bound turn (or of no turn but received under this subscription), or for a child announced on the same channel, with exactly the child turn bound to that owner. |
| `CodexPromises.OrderPreservation` | crates/trouve-agents/src/codex.rs:3212-3662 | Deliveries of one thread and turn are in arrival order, through buffering, displacement, adoption and adoption inside a drain. |
| `CodexPromises.OwnershipInvariant` | crates/trouve-agents/src/codex.rs:3189-3645 | Every owner entry refers to a live route activated for its turn and generation; a child without a route of its own is not bound to a tombstoned turn and has nothing of its bound turn buffered. |
| `CodexPromises.BoundedMemory` | crates/trouve-agents/src/codex.rs:3084-3284 | The unknown-buffer set and its queue hold the same distinct ids, which are the buffered threads without a route; buffers, unknown buffers and tombstones stay within their budgets. |
| `CodexPromises.LossFailsClosed` | crates/trouve-agents/src/codex.rs:3584-3607 | A channel that adopted a buffer which lost an event before subscription is overloaded. |
| `CodexPromises.AdoptionMarksExactly` | crates/trouve-agents/src/codex.rs:3584-3607 | An adoption fails its channel closed if and only if the buffer lost an event while its thread had no subscription, or its traffic names several turns. |
| `CodexPromises.ActivationFailsClosed` | crates/trouve-agents/src/codex.rs:3632-3662 | Activation for a turn reports an overflow if and only if its buffer lost an event of that turn or of no turn while subscribed, or a request or announcement before, and then its channel is overloaded. |
| `CodexReplay.StoredExactly` | crates/trouve-agents/src/codex.rs:3517-3597 | Over every run: an event received between the subscription and the activation of its thread is there for the activation to replay, or recorded as lost, if and only if since it arrived no delivery announced the thread and the root that owned the thread then, if any, has not ended. Until the activation it is on no channel. |
| `CodexReplay.ReplayedUnlessInterfered` | crates/trouve-agents/src/codex.rs:3632-3662 | The activation puts such an event of its turn on the channel, or marks the channel overloaded, or finds it failed and loses the route, if nothing interfered; if something did, the event reaches no channel. |
| `CodexReplay.UnannouncedIsStored` | crates/trouve-agents/src/codex.rs:3610-3662 | Everything that a subscription received is there at its activation if no delivery announced the thread since it subscribed. |
| `CodexReplay.AnnouncementTakesAll` | crates/trouve-agents/src/codex.rs:3517-3597 | Where the code falls short: announcing a thread that awaits its activation takes its whole buffer with its record of losses, routes none of the events its subscription received, and leaves its activation nothing to report. |
| `CodexReplaySteps.StepFollows` | crates/trouve-agents/src/codex.rs:3365-3603 | One turn of the work loop keeps a stored event stored, unsent and out of the work list, exactly unless it announces the thread or ends its owner. |
| `CodexReplaySteps.ApplyFollows` | crates/trouve-agents/src/codex.rs:3306-3662 | So does every operation after which the thread still awaits its activation. |
| `CodexForgottenLoss.LossIsForgotten` | crates/trouve-agents/src/codex.rs:3517-3597 | Concrete legal runs: any number of events arrive for a subscribed child, the root announces it, it is activated. In the end none of them is held or was sent, and no channel is overloaded, with one event as well as with more than fit. |
| `CodexForgottenLoss.OwnerEndForgets` | crates/trouve-agents/src/codex.rs:3294-3332 | A concrete legal run on which the event arrives after the announcement and is forgotten when the announcing root ends. |
| `CodexForgottenLoss.LossIsReachable` | crates/trouve-agents/src/codex.rs:3212-3284 | The run up to the announcement is legal for every consumer behaviour, and after n arrivals the buffer holds exactly the first 1024 of them in order and records exactly the others as lost. |
| `CodexLaws.EnqueueExactly` | crates/trouve-agents/src/codex.rs:3226-3283 | An event is refused if and only if its buffer is full and it is no request (or announcement before a subscription), or there is nothing plain to displace; otherwise it is kept last, and in a full buffer exactly the first plain event is gone, with the others in order. |
| `CodexLaws.OverflowIsJustified` | crates/trouve-agents/src/codex.rs:3234-3256 | Over every run: a request was declined for want of room only if its buffer then held 1024 events that nothing may displace. |
| `CodexLaws.RequestWaitsUnlessFull` | crates/trouve-agents/src/codex.rs:3212-3284 | A request that is to wait is held last, unless its buffer is full of such events. |
| `CodexLaws.NoAnswerTwice` | crates/trouve-agents/src/codex.rs:3062-3097 | Over every run: no id is answered that was not asked and, where requests have ids of their own, none twice, counting all hand-overs. |
| `CodexLaws.OverloadedStaysSilent` | crates/trouve-agents/src/route.rs:69-85 | Over every run: once a channel is overloaded nothing is put on it any more, and it stays overloaded. |
| `CodexLaws.RefusedSendEndsRoute` | crates/trouve-agents/src/codex.rs:3486-3511 | A send puts the event on the channel and keeps the route, or is refused and ends the route; the channel becomes overloaded exactly if it was full. |
| `CodexLaws.FailedThreadsHoldNothing` | crates/trouve-agents/src/codex.rs:3134-3157 | Over every run: a thread with a failure tombstone has neither a subscription nor a buffer. |
| `CodexLaws.RetiredOwnerIsMarked` | crates/trouve-agents/src/codex.rs:3189-3210 | An owner that goes leaves the tombstone of the turn it had bound, or of the child if it had bound none. |
| `CodexLaws.CompletionRetires` | crates/trouve-agents/src/codex.rs:3483-3516 | Once a bound child's `turn/completed`, which announces nobody, went out, the child has no owner and its turn a tombstone. |
| `CodexLaws.RetiredTurnIsRefused` | crates/trouve-agents/src/codex.rs:3337-3358 | Over every run: as long as that tombstone is there and the child has no subscription, an event of that turn is refused on arrival, a request with a decline, and nothing else changes. |
| `CodexLaws.UnresolvedClaimsNothing` | crates/trouve-agents/src/codex.rs:3523-3544 | The next announcement of a child that was retired before it had a turn claims nothing of its buffer and refuses every event in it once. |
| `CodexLaws.OwnedEventsAreKept` | crates/trouve-agents/src/codex.rs:3346-3358 | What a child says under one owner cannot be claimed by an announcement of another subscription. |
| `CodexLaws.AnnouncementOwns` | crates/trouve-agents/src/codex.rs:3545-3583 | An announced child is owned by the claim; its turn is the only one the claimed events name and otherwise the one the same claim had bound; an owner that is replaced leaves its tombstone. |
| `CodexLaws.OldestUnknownExpires` | crates/trouve-agents/src/codex.rs:3099-3114 | A new unknown thread makes the oldest one expire, and no other, if and only if there are 64 already; everything buffered for it is declined. |
| `CodexPromises.StepDeliversExactly` | crates/trouve-agents/src/codex.rs:3371-3512 | An event is offered to a channel if and only if some root is entitled to it, then to that root's channel; it waits if and only if ownership is undecided; the rejections of an owner whose route moved on cannot happen. |
| `CodexTheorems.RunSound` | crates/trouve-agents/src/codex.rs:3037-3662 | Every legal run keeps all router invariants together (indexes, buffers, routes, owners, attribution, order, loss marks). |
| `CodexTheorems.ApplySound` | crates/trouve-agents/src/codex.rs:3306-3662 | Each operation keeps them from any sound state. |
| `CodexTheorems.RunConserves` | crates/trouve-agents/src/codex.rs:3062-3662 | Over any run, the places a request is in add up to the number of times it arrived. |
| `CodexTheorems.RunStamps` | crates/trouve-agents/src/codex.rs:3337-3358 | Arrivals are numbered in order. |
| `CodexRuns.DrainSound` | crates/trouve-agents/src/codex.rs:3361-3603 | Draining a work list that grows while it is drained keeps every invariant, whatever is left in it at each step. |
| `CodexRuns.DrainConserves` | crates/trouve-agents/src/codex.rs:3361-3603 | Draining neither loses nor duplicates a request. |
| `CodexConservation.StepMakesProgress` | crates/trouve-agents/src/codex.rs:3361-3603 | One turn of the work loop decreases (events queued or buffered, events queued) lexicographically, so the work list empties. |
| `CodexConservation.StepConserves` | crates/trouve-agents/src/codex.rs:3365-3603 | One turn of the work loop moves a request between places without losing or duplicating it. |
| `CodexConservation.EnqueueConserves` | crates/trouve-agents/src/codex.rs:3226-3283 | A full buffer never displaces a request, and refuses a request only by declining it. |
| `CodexInvariantSteps.StepKeeps` | crates/trouve-agents/src/codex.rs:3365-3603 | One turn of the work loop keeps index agreement, buffer bounds, route and owner invariants. |
| `CodexInvariantSteps.AnnounceKeeps` | crates/trouve-agents/src/codex.rs:3517-3597 | Claiming an announced child keeps them, with the released messages accounted for. |
| `CodexInvariants.RemoveRouteKeeps` | crates/trouve-agents/src/codex.rs:3306-3332 | Removing a route retires its descendants and keeps every invariant. |
| `CodexAttribution.StepAttributes` | crates/trouve-agents/src/codex.rs:3375-3512 | One turn of the work loop puts only attributable events on channels and keeps owners linked to announcements. |
| `CodexOrder.StepOrders` | crates/trouve-agents/src/codex.rs:3365-3603 | One turn of the work loop keeps logs, buffers and the work list in per-stream arrival order. |
| `CodexInvariantSteps.RecordLossRecords` | crates/trouve-agents/src/codex.rs:3226-3283 | The overload flags and overflowed turns of a buffer describe exactly the losses of its history. |
| `Tombstones.BuryKeepsBounds` | crates/trouve-agents/src/codex.rs:3138-3210 | Laying a tombstone keeps the live set inside a duplicate-free queue within budget and makes the key live. |
| `Tombstones.TrimExpiresTheOldest` | crates/trouve-agents/src/codex.rs:3138-3153 | Exactly the oldest entries beyond the budget leave the queue, and exactly their keys stop being live. |
| `CodexRoutingState.RoutingState.RejectRetiredRequest` | crates/trouve-agents/src/codex.rs:3062-3090 | In place: a request is answered in the queue with a decline that carries its own id and the form it asks for, or the overload flag is raised; other messages change nothing. |
| `CodexRoutingState.RoutingState.TakeRetiredResponses` | crates/trouve-agents/src/codex.rs:3092-3097 | Hands over the queued responses and the flag and resets both. |
| `CodexRoutingState.RoutingState.TrackUnknownBuffer` | crates/trouve-agents/src/codex.rs:3099-3114 | Registers an unknown buffer and expires the oldest beyond the budget, as `TrackUnknown`. |
| `CodexRoutingState.RoutingState.RejectBufferedFor` | crates/trouve-agents/src/codex.rs:3116-3132 | Declines what is buffered for a thread and forgets the buffer. |
| `CodexRoutingState.RoutingState.TakeBuffered` | crates/trouve-agents/src/codex.rs:3122-3132 | Takes the buffer of a thread out of every index. |
| `CodexRoutingState.LayTombstone` | crates/trouve-agents/src/codex.rs:3138-3153 | The in-place queue and set operations, with the expiry loop, are `Bury`. |
| `CodexRoutingState.FindEvictable` | crates/trouve-agents/src/codex.rs:3238-3241 | The search loop finds the first displaceable event. |
| `CodexRoutingState.EnqueueEvent` | crates/trouve-agents/src/codex.rs:3226-3283 | The branches of a bounded buffer are `Enqueue`; what that keeps, displaces and refuses is `EnqueueExactly`. |
| `CodexRoutingState.RoutingState.RetireOwnerOf` | crates/trouve-agents/src/codex.rs:3189-3210 | Drops an owner and leaves the tombstone of its turn, or of the unbound child. |
| `CodexRoutingState.RoutingState.HoldMessage` | crates/trouve-agents/src/codex.rs:3212-3284 | Buffers or declines a message, as `BufferMessage`, keeping the state well-formed. |
| `CodexRoutingState.RoutingState.ClearDescendantsOf` | crates/trouve-agents/src/codex.rs:3286-3304 | The loop over a root's children retires each and declines what it has buffered. |
| `CodexRoutingState.RoutingState.RemoveRouteIfSame` | crates/trouve-agents/src/codex.rs:3306-3332 | Removes a route only for its own channel, with everything it owned. |
| `CodexRoutingState.RoutingState.Offer` | crates/trouve-agents/src/route.rs:69-85 | One `try_send`: an overloaded channel refuses, a full one becomes overloaded. |
| `CodexRoutingState.RoutingState.ClaimEligible` | crates/trouve-agents/src/codex.rs:3525-3544 | The loop over a claimed buffer declines stale requests and keeps the rest in order. |
| `CodexRoutingState.CandidatesDecide` | crates/trouve-agents/src/codex.rs:3545-3563 | The set of candidate turns has more than one element exactly when the kept events disagree, and otherwise names their turn. |
| `CodexRoutingState.RoutingState.OwnChild` | crates/trouve-agents/src/codex.rs:3564-3583 | Binds a child unless the same claim already owns a compatible turn of it. |
| `CodexRoutingState.RoutingState.ClaimChild` | crates/trouve-agents/src/codex.rs:3518-3597 | Claims one announced child with its buffer, as `Announce`. |
| `CodexRoutingState.RoutingState.RouteNext` | crates/trouve-agents/src/codex.rs:3365-3603 | One turn of the work loop in place is `Step`. |
| `CodexRoutingState.RoutingState.RouteBufferedMessage` | crates/trouve-agents/src/codex.rs:3361-3607 | The whole work loop, with the marks applied after it, is `RouteBuffered`; it terminates. |
| `CodexRoutingState.RoutingState.RouteArrival` | crates/trouve-agents/src/codex.rs:3337-3358 | A message from the app-server is tagged with the generation it was received under and routed, or declined for a retired turn. |
| `CodexRoutingState.RoutingState.SubscribeTo` | crates/trouve-agents/src/codex.rs:3610-3630 | A subscription clears what an earlier owner left, adopts an unknown buffer and takes a new generation. |
| `CodexRoutingState.RoutingState.ActivateRoute` | crates/trouve-agents/src/codex.rs:3632-3662 | Binds the route, replays its buffer in order and marks a relevant overflow; a stale channel changes nothing. |
| `CodexLedger.NoResurrection` | crates/trouve-agents/src/codex.rs:2679-2751 | However completions, registrations, exact clears and expiry interleave, no active marker names a turn in the completed set. |
| `CodexLedger.OpKeeps` | crates/trouve-agents/src/codex.rs:2703-2751 | An operation touches only its own thread; a stale completion or clear never removes a replacement's marker; a registration takes effect if and only if the turn is not known to have completed and, where only-if-vacant, no other is marked; a recorded completion is known. |
| `CodexLedger.CompletedStaysOut` | crates/trouve-agents/src/codex.rs:2679-2751 | Over every run: after the first record of a completion, as long as fewer than 4096 others follow, the turn is known to have completed and is never marked active. |
| `CodexLedger.TurnLedger.Record` | crates/trouve-agents/src/codex.rs:2685-2695 | The insert and the expiry loop are `Remember`. |
| `CodexLedger.TurnLedger.RecordCompletedTurn` | crates/trouve-agents/src/codex.rs:2703-2722 | Records the completion and clears exactly its marker. |
| `CodexLedger.TurnLedger.RegisterActiveTurn` | crates/trouve-agents/src/codex.rs:2730-2751 | Registers, or reports the turn completed or the thread owned by a replacement; the ledger invariant is kept. |
| `CodexLedger.TurnLedger.ClearActiveTurn` | crates/trouve-agents/src/codex.rs:5013-5021 | Clears the marker only if it names the expected turn. |
| `CodexLifecycle.MutualExclusion` | crates/trouve-agents/src/codex.rs:2753-2985 | In every reachable registry, at most one guard per thread is held. |
| `CodexLifecycle.PruningKeepsTheMutex` | crates/trouve-agents/src/codex.rs:2760-2773 | Removing a registry entry never lets a second mutex of the thread be taken while the first is held or waited on. |
| `CodexLifecycle.RefinesLock` | crates/trouve-agents/src/codex.rs:2753-2985 | Every step of the registry is a step of one abstract lock per thread. |
| `CodexLifecycle.ReachableInv` | crates/trouve-agents/src/codex.rs:2753-2985 | The registry invariant holds after any interleaving. |
| `CodexLifecycle.LookupJoinsExactly` | crates/trouve-agents/src/codex.rs:2966-2985 | A new client joins the registered mutex if anybody refers to it, and otherwise gets one nobody refers to. |
| `CodexLifecycle.PrunedExactly` | crates/trouve-agents/src/codex.rs:2760-2773 | Releasing a registered mutex removes its entry if and only if nobody else refers to it. |
| `CodexLifecycle.SoleClientsLeaveNothing` | crates/trouve-agents/src/codex.rs:2760-2773 | Over every run without abandoned waits in which the clients of a thread follow each other, a thread is registered if and only if it has a client that did not release it yet. |
| `CodexLifecycle.OverlapLeavesAnEntry` | crates/trouve-agents/src/codex.rs:2760-2773 | A run without abandoned waits that ends with an entry and no client: two releases overlap and each sees the reference of the other. |
| `CodexTurnProtocol.WriteIsSafe` | crates/trouve-agents/src/codex.rs:4863-4943 | Whenever `turn/start` may be written, no earlier turn of that thread runs at the vendor and none is still to be acted on. |
| `CodexTurnProtocol.OneVendorTurnPerThread` | crates/trouve-agents/src/codex.rs:2792-2963 | On an open transport the vendor never runs two turns of one thread, over all interleavings of start, cancel, drop, late response, completion and interrupt. |
| `CodexTurnProtocol.ReplacementUnreachable` | crates/trouve-agents/src/codex.rs:2912-2937 | Recovering a cancelled start on an open transport never finds a replacement's marker. |
| `CodexTurnProtocol.StepKeeps` | crates/trouve-agents/src/codex.rs:2792-2963 | Every step keeps: lifecycle held by one attempt, requests outstanding only for it, markers that fit its stage, and every live turn accounted for. What each attempt does with its turn is in `CodexTurnOutcomes`. |
| `CodexTurnProtocol.ReachableInv` | crates/trouve-agents/src/codex.rs:2792-2963 | The protocol invariant holds after any sequence of steps. |
| `CodexTurnOutcomes.RecoveryInterrupts` | crates/trouve-agents/src/codex.rs:2911-2946 | On an open transport, recovering a cancelled start whose turn still runs goes on to interrupt that very turn, with the lifecycle held. |
| `CodexTurnOutcomes.CleanupInterrupts` | crates/trouve-agents/src/codex.rs:2130-2165 | So does the cleanup of a stream that ends while its turn still runs. |
| `CodexTurnOutcomes.NobodyLeavesATurn` | crates/trouve-agents/src/codex.rs:2842-2963 | Over every run on an open transport: an attempt that is finished while the turn it started runs, or is marked active, gave up while it was interrupting that turn. |
| `CodexTurnOutcomes.CancelledNeverBinds` | crates/trouve-agents/src/codex.rs:4902-4936 | Over every run: a start that was cancelled never gets as far as binding its route. |
| `CodexTurnOutcomes.LifecycleExactly` | crates/trouve-agents/src/codex.rs:2842-2963 | Over every run: a lifecycle is held exactly by the attempt of its thread that is at a stage that needs it. |
| `CodexTurnOutcomes.UndisturbedStartStreams` | crates/trouve-agents/src/codex.rs:4863-4943 | From every reachable state on an open transport: an attempt that nobody disturbs on a free thread interrupts the turn marked active and ends up streaming its own, marked active, with the lifecycle free again. |
| `CodexTurnOutcomes.NobodyIsStuck` | crates/trouve-agents/src/codex.rs:2842-2963 | From every reachable state: whoever holds a lifecycle can let go of it with at most three steps of its own. |
| `CodexTurnOutcomes.ClosingDropsMarkers` | crates/trouve-agents/src/codex.rs:3666-3684 | Closing the transport drops every active marker. |
| `CodexTurnOutcomes.ClosedSettles` | crates/trouve-agents/src/codex.rs:2812-2830 | An attempt whose request the transport can no longer answer is over, and gives the lifecycle back, once it notices. |
| `CodexTopology.StaysForest` | crates/trouve-agents/src/codex.rs:2253-2288 | Whatever is announced under a root, the parents have no cycle and the root is nobody's child. |
| `CodexTopology.NeverReparents` | crates/trouve-agents/src/codex.rs:2262-2264 | A session keeps its first parent over every longer run. |
| `CodexTopology.AdmissibleExactly` | crates/trouve-agents/src/codex.rs:2255-2287 | An announcement of real sessions is accepted if and only if it contradicts no known parent and the edge leaves a forest. |
| `CodexTopology.AncestorsNeverRepeat` | crates/trouve-agents/src/codex.rs:2266-2282 | The ancestors met on a walk are all different. |
| `CodexTopology.CollaboratorTopology.Admit` | crates/trouve-agents/src/codex.rs:2254-2287 | The ancestor walk terminates, its visited check never fires, and result and new map are exactly the specified ones. |
| `ManagedRuntime.RuntimeRoot.SurvivesEveryCrash` | crates/trouve-agents/src/install.rs:855-991 | After whichever step the machine crashes, the surviving pointer and link name generations that exist with all contents flushed, unless an uninstall began to remove that generation; so do the visible ones, which never name a pruned generation. |
| `ManagedRuntime.RuntimeRoot.LeasesAreSafe` | crates/trouve-agents/src/install.rs:375-396 | After every step of every process, a leased generation exists and is as whole as when it was leased, and the number of generations is within its bound. |
| `ManagedRuntime.RuntimeRoot.Lifetime` | crates/trouve-agents/src/install.rs:825-1464 | Any sequence of preparations, downloads, activations, leases, releases and uninstalls by any number of processes, killed or crashed after any step of the last request, keeps the disk invariant at every step; without machine crashes at most 8 generations exist. |
| `ManagedRuntime.RuntimeRoot.Serve` | crates/trouve-agents/src/install.rs:825-1464 | One request, kill or crash does; a kill leaves a disk of the last request, a crash an outcome of one, and a request that nothing disturbs achieves what it is for. |
| `ManagedRuntime.RuntimeRoot.Activate` | crates/trouve-agents/src/install.rs:825-991 | Refused if and only if the epoch changed or the stage is gone, and then nothing changes; the install is used up. A failure leaves the pointer, happens with room left only if something failed, and after a single one leaves no new generation. Success names a new, flushed generation that no uninstall touched; it is durable unless something failed, then the only pointer and link a crash can leave, and whatever is kept besides it and the previous one is leased or could not be removed. An install older than a completed uninstall succeeds only under a cut-short epoch and with its stage written again. |
| `ManagedRuntime.RuntimeRoot.PublishStaged` | crates/trouve-agents/src/install.rs:855-991 | The part of it after the guards, with the same outcomes. |
| `ManagedRuntime.RuntimeRoot.EnsureCapacity` | crates/trouve-agents/src/install.rs:1179-1224 | Succeeds only with room for one more generation, and at once where there is room; otherwise fails only if something failed, no install is whole, or everything but the active generation is leased. Never moves the pointer or damages the active generation. |
| `ManagedRuntime.RuntimeRoot.Secure` | crates/trouve-agents/src/install.rs:1206-1212 | Makes the active generation, pointer and link durable before anything is reclaimed; succeeds exactly if nothing failed. |
| `ManagedRuntime.RuntimeRoot.SyncPublication` | crates/trouve-agents/src/install.rs:1152-1167 | Succeeds exactly if no flush failed, and then leaves one pointer and one link that a crash can leave. |
| `ManagedRuntime.RuntimeRoot.Prune` | crates/trouve-agents/src/install.rs:1909-1939 | Exactly the active, the previous and the reported generations stay, the first two untouched; unless something failed, a reported one was leased. It may run only when no other name can survive a crash. |
| `ManagedRuntime.RuntimeRoot.Reclaim` | crates/trouve-agents/src/install.rs:1923-1937 | A leased generation is not touched; any other is removed with its lease file unless something failed, and removal may stop half-way. |
| `ManagedRuntime.RuntimeRoot.Move` | crates/trouve-agents/src/install.rs:867-901 | The staged runtime gets a name never used before, after its lease file exists. |
| `ManagedRuntime.RuntimeRoot.Place` | crates/trouve-agents/src/install.rs:867-906 | A placed generation is flushed, contents before entry; one that cannot be is discarded, and after a single failure nothing is left of it; all others are spared. |
| `ManagedRuntime.RuntimeRoot.Commit` | crates/trouve-agents/src/install.rs:923-932 | The rename is the only commit point; before it nothing changes. |
| `ManagedRuntime.RuntimeRoot.PublishLink` | crates/trouve-agents/src/install.rs:1502-1523 | The link moves atomically, or stays exactly if something failed. |
| `ManagedRuntime.RuntimeRoot.Publish` | crates/trouve-agents/src/install.rs:944-970 | Durable if and only if neither the link rename nor a flush failed; then pointer and link are the only ones a crash can leave, and everything but the new and the previous generation is gone, leased or could not be removed. Otherwise every generation is retained. |
| `ManagedRuntime.RuntimeRoot.PlaceAndCommit` | crates/trouve-agents/src/install.rs:867-943 | Commits exactly if nothing failed; otherwise the pointer stays and after a single failure nothing is left of the new generation; the install it replaces is reported. |
| `ManagedRuntime.RuntimeRoot.Perform` | crates/trouve-agents/src/install.rs:825-1464 | Each request, if nothing fails, achieves what it is for: a passing install with room is active and linked, a whole install is leased, an uninstall with no lease held removes everything. |
| `ManagedRuntime.RuntimeRoot.Installed` | crates/trouve-agents/src/install.rs:355-368 | Reports the pointer's generation whenever it is whole. |
| `ManagedRuntime.RuntimeRoot.InstalledWithLease` | crates/trouve-agents/src/install.rs:378-396 | Selects and leases the active generation in one step; a whole install is missed only if something failed. |
| `ManagedRuntime.RuntimeRoot.LockAllLeases` | crates/trouve-agents/src/install.rs:1466-1500 | Success means nobody holds a lease; it fails only if something failed or a lease was held. |
| `ManagedRuntime.RuntimeRoot.RemoveRoot` | crates/trouve-agents/src/install.rs:1457-1460 | Pointer, generations and stages are removed in any order, stopping exactly where something fails; success leaves nothing; the names a crash can leave stay what they were. |
| `ManagedRuntime.RuntimeRoot.Uninstall` | crates/trouve-agents/src/install.rs:1442-1464 | Changes nothing while a lease is held; completes only with a new whole epoch and neither runtimes nor stages left, and outdates every preparation; fails only if something failed, a lease was held or the epoch was cut short; what it leaves is safe in a crash if and only if no generation could have been named before. |
| `ManagedRuntime.UninstallThenCrash` | crates/trouve-agents/src/install.rs:1442-1464 | Where the code falls short: a run that installs and completely uninstalls ends on a disk that is not safe in a crash. |
| `ManagedRuntime.PublishesAfterUninstall` | crates/trouve-agents/src/install.rs:1400-1420 | Where the code falls short: a run on which an install prepared before a completed uninstall publishes after it. |
| `ManagedRuntime.RuntimeRoot.InvalidatePreparedInstalls` | crates/trouve-agents/src/install.rs:1331-1337 | The epoch is unchanged, cut short or replaced, and replaced if it succeeds. |
| `RuntimeDisk.RemovableExactly` | crates/trouve-agents/src/install.rs:1909-1939 | A generation may be removed if and only if it is not leased and no name that could survive a crash needs it. |
| `RuntimeDisk.CrashSafety` | crates/trouve-agents/src/install.rs:900-932 | Any crash outcome of a disk that satisfies the invariant satisfies it again. |
| `RuntimeDisk.CrashSafeExactly` | crates/trouve-agents/src/install.rs:901-933 | A disk is safe in a crash if and only if every name that could survive has its whole generation now. |
| `RuntimeDisk.RemovedCrashSafeExactly` | crates/trouve-agents/src/install.rs:1453-1463 | With everything removed and nothing flushed, that is if and only if nothing could be named before. |
| `InstallGuards.OutdatedPassesExactly` | crates/trouve-agents/src/install.rs:838-853 | Over every run: an install prepared before a completed uninstall gets past both guards if and only if its download is over, the text of its epoch is current again, and its stage was written again since; its epoch is then cut short. |
| `InstallGuards.FinishedStaysOut` | crates/trouve-agents/src/install.rs:846-853 | A preparation that was over at the uninstall never passes again. |
| `InstallGuards.UsedUpStaysOut` | crates/trouve-agents/src/install.rs:838-853 | An install that was used up, or whose process is gone, never passes again. |
| `InstallGuards.UndisturbedPasses` | crates/trouve-agents/src/install.rs:838-853 | While no uninstall comes in between and nobody gives the install up, it passes if and only if its download wrote the stage and is over. |
| `InstallGuards.RevivableExactly` | crates/trouve-agents/src/install.rs:1317-1337 | Some run lets an install prepared under an epoch pass after a completed uninstall if and only if that epoch is the empty one or another cut-short text. |
| `InstallGuards.RevivalPasses` | crates/trouve-agents/src/install.rs:1331-1337 | The run: a download in flight during a completed uninstall writes its stage again, and a second uninstall fails between truncating the epoch and writing it. |
| `InstallGuards.RunKeeps` | crates/trouve-agents/src/install.rs:1400-1420 | The guard invariant holds after any sequence of preparations, downloads, removals and epoch writes. |
| `InstallCancellation.CancellationLinearized` | crates/trouve-agents/src/install.rs:233-254 | An accepted cancellation means the pointer is never published, a refused one that it already was. |
| `InstallCancellation.InstallProgress.CancelBeforeActivationCommit` | crates/trouve-agents/src/install.rs:233-241 | Refused exactly after the commit. |
| `InstallCancellation.InstallProgress.CommitActivation` | crates/trouve-agents/src/install.rs:243-254 | Publishes exactly if not cancelled and the rename succeeds. |
| `ClaudeIsolation.TurnIsolation` | crates/trouve-agents/src/claude.rs:519-648 | Over all interleavings: from a line buffered as the start of an autonomous turn up to and including the next result, nothing reaches a turn that trouve started. |
| `ClaudeIsolation.ResultEndsTurn` | crates/trouve-agents/src/claude.rs:519-648 | A consumer gets at most one result and nothing after it. |
| `ClaudeIsolation.ForegroundInOrder` | crates/trouve-agents/src/claude.rs:563-640 | A turn that trouve started gets its lines in arrival order. |
| `ClaudeIsolation.NoLineTwice` | crates/trouve-agents/src/claude.rs:519-648 | No line is delivered twice, and a delivered line is neither buffered nor lost. |
| `ClaudeIsolation.StepConserves` | crates/trouve-agents/src/claude.rs:481-648 | Every line that arrived was delivered, is buffered, is being sent or was lost: exactly one of them. |
| `ClaudeIsolation.BytesAreCounted` | crates/trouve-agents/src/claude.rs:481-516 | `background_bytes` equals the buffered total, so it never underflows. |
| `ClaudeIsolation.ContainedExactly` | crates/trouve-agents/src/claude.rs:577-632 | Lines up to the next result are kept from turns trouve started, whatever happens, if and only if an autonomous turn is in flight. |
| `ClaudeIsolation.AttachedStartLeaks` | crates/trouve-agents/src/claude.rs:608-615 | Where the code falls short: a first line that an attached consumer takes with nothing in flight does not mark a turn in flight, and exactly then the lines after it can reach a turn trouve started. |
| `ClaudeLeak.LeakingRun` | crates/trouve-agents/src/claude.rs:563-632 | The literal run: a line of the second autonomous turn is delivered to a turn trouve started, with no result since that turn began. |
| `ClaudePrompts.PromptFirst` | crates/trouve-agents/src/claude.rs:407-459 | Over all interleavings: a line goes to a turn that trouve started only after that registered and a prompt was delivered since. |
| `ClaudeSignals.StartsAreAnnounced` | crates/trouve-agents/src/claude.rs:623-632 | Over every run: there are at least as many announcements as autonomous turns that started with nobody attached. |
| `ClaudeSignals.LeftBehindExactly` | crates/trouve-agents/src/claude.rs:495-632 | The step that leaves pending output without an attached consumer announces it if and only if it is neither the end of the pump nor the arrival of a result for an attached consumer. |
| `ClaudeSignals.LeftBehindIsAnnounced` | crates/trouve-agents/src/claude.rs:313-321 | Over every run, outside these two cases: whenever output waits with nobody attached, an announcement was made since it was left so. |
| `ClaudeSignals.DeliveryDecides` | crates/trouve-agents/src/claude.rs:633-641 | What a live result leaves behind is announced after its delivery if and only if the delivery succeeds. |
| `ClaudeSignals.ForgottenTurn` | crates/trouve-agents/src/claude.rs:633-641 | Where the code falls short: a literal run that ends with a whole turn buffered and nobody attached, announced only before it was attached to. |
| `ClaudeIsolation.StepKeeps` | crates/trouve-agents/src/claude.rs:519-648 | Every step of every party keeps the router invariants. |
| `ClaudeRouter.TrimKeepsTheNewest` | crates/trouve-agents/src/claude.rs:481-491 | The limit discards the oldest lines, counts them, and no more than it must. |
| `ClaudeRouter.StdoutRouter.BufferLine` | crates/trouve-agents/src/claude.rs:481-491 | The eviction loop is `BufferBackground`. |
| `ClaudeRouter.StdoutRouter.RegisterConsumer` | crates/trouve-agents/src/claude.rs:416-459 | Replaces a dead consumer, refuses a second one, reports nothing pending to an attachment without a turn. |
| `ClaudeRouter.RegistrationDecides` | crates/trouve-agents/src/claude.rs:416-459 | Busy exactly while the receiver of another consumer is there, nothing pending exactly for an attachment with neither buffered nor live output; whoever is registered gets live lines at once if attached and otherwise only after its prompt. |
| `ClaudeRouter.StdoutRouter.DeliverPrompt` | crates/trouve-agents/src/claude.rs:407-409 | From now on a live line goes to the registered turn, unless an autonomous turn is in flight that it is not attached to. |
| `ClaudeRouter.StdoutRouter.LoseConsumer` | crates/trouve-agents/src/claude.rs:495-516 | Only the registered consumer is removed; an attached one puts its line back and is announced again. |
| `ClaudeRouter.StdoutRouter.PopBuffered` | crates/trouve-agents/src/claude.rs:524-548 | Takes the next buffered line for an attached consumer; a result ends its turn. |
| `ClaudeRouter.StdoutRouter.RouteLine` | crates/trouve-agents/src/claude.rs:577-632 | The five-way decision on a live line: destination and new state. |
| `ClaudePool.Pool.OneTreePerThread` | crates/trouve-agents/src/claude.rs:153-178 | A thread has at most one process tree that may still run, and it is under the thread's key. |
| `ClaudePool.Pool.TerminateAndRemove` | crates/trouve-agents/src/claude.rs:163-178 | Quarantines first and frees the key only once the tree exited. |
| `ClaudePool.Pool.ReapIdle` | crates/trouve-agents/src/claude.rs:182-213 | Quarantines every idle, expired process and no other; an entry goes only with its tree and stays only if a cleanup failed. |
| `ClaudePool.Pool.LeastRecentlyUsed` | crates/trouve-agents/src/claude.rs:218-227 | Finds the least recently used process that may be evicted, or there is none. |
| `ClaudePool.Pool.EnforceCap` | crates/trouve-agents/src/claude.rs:216-249 | Evicts in order of last use, no more than needed, until there is room or nobody to evict; it fails exactly if a cleanup was tried and failed. |
| `ClaudePool.Pool.Spawn` | crates/trouve-agents/src/claude.rs:1492-1494 | A new process only under a free key. |
| `ClaudePool.Pool.ProcFor` | crates/trouve-agents/src/claude.rs:1446-1495 | A live, matching process that was not quarantined is served again and the pool is unchanged; a process of the thread is ended only if it is dead, quarantined or no longer matches. Without a failure or cancellation there is a process, under the thread's key and never quarantined; a new one is started only after the old tree exited, and others are evicted only if idle and at capacity. |
| `ClaudePool.Pool.Handle` | crates/trouve-agents/src/claude.rs:163-250 | Each request achieves what it is for, unless something failed: a process for the turn, a freed key, every idle expired process ended, a use remembered. |
| `ClaudePool.Pool.Serve` | crates/trouve-agents/src/claude.rs:163-250 | Over any run with failing cleanups the pool invariant holds and quarantine is for ever. |

## Left out

- JSON parsing, event translation and usage or rate-limit parsing: a message is its kind, thread, turn and announced children.
- Process spawning and killing, pipes, clocks and timeouts as such: they are outcomes that succeed or fail.
- Transport close as an operation of the router: it resets all routing state and ends a run; the turn protocol models it.
- `abandon_background_turns` and the Codex `shutdown`, which drop their entries even when cleanup fails.
- Claude steering admission (`reserve_steer_write`, `line_received`, `turn_boundary`): it reads router state that may lag the pump.
- Buffered-before-live order for attached Claude consumers: a live line can win against the wake-up of a registration.
- Legacy version directories and `prune_old_versions`, and the copy that replaces the compatibility link on Windows.
- The traversal of a runtime tree file by file: flushing a generation's contents is one step that succeeds or fails.
- Downloads, checksums, archive extraction, platform names, `codex_roster.rs`, `cursor_roster.rs`, `login.rs`, scripts and benchmarks.
- ManagedRuntime.RuntimeRoot.Lifetime: the bound of 8 generations is for runs without machine crashes, because a crash can restore generations whose removal was not flushed.
- The lifecycle registry, the turn protocol and the loop of the Claude router as code: their calls interleave at every await, so they are state machines over their atomic steps rather than classes.
- Downloads that write while another process holds the activation lock: a download writes its stage between the requests of others.
- The use of `Progress` inside activation: there a cancellation is one outcome of the commit, and `InstallCancellation` orders it against the commit.
