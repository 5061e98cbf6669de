# Relay, modelled and proved

Relay is a lease-based executor. A control plane keeps runs, hands each of them to one node
at a time under a lease, and takes events and a final report back; a node renews its lease,
spools events on disk until they are acknowledged, and reports how the run ended; clients
follow a run over server-sent events. This project models that protocol, with what rests on
it, and proves what it keeps over every sequence of steps.

How the parts fit together:

- `Types`, `Identity`, `RunProtocol`: the values, the composite keys, and what each operation
  does to one run. `RunInvariants`: what holds of a run, and what later states keep of it.
- `Protocol`: every storage operation as one atomic step `Next(s, op, s')` with its arguments,
  clock readings, choices and answer. `Behaviours`, `Leases`, `Reconciliation`, `CancelStall`:
  what holds over whole traces of steps. `Answers`, `Dispatch`: what is answered and changed,
  told by the fields of the runs and without the guards the operations use. `Causes`,
  `HolderRights`, `Chronicle`: why a run is in its state, what a holder may rely on, and what the
  event log tells, over whole traces.
- `MemoryStorage`: the class with its maps and counters, changed in place; every method is
  proved to take a step of the protocol on the state its tables stand for. Node counters are
  kept by increments and decrements and proved equal to a recount.
- `PostgresStore`: the relational storage as guarded transactions on rows, with its own,
  stronger, status invariant. It is not a refinement of the in-memory one, nor the other way
  round. `PostgresAnswers`: what it answers and changes, told by the fields of the rows.
  `PostgresHistory`: what holds over whole histories of its transactions.
- `Producers`, `EmitOrder`, `World`, `Outbox`, `FinalReport`, `Cancellation`, `Worker`,
  `LeaseKeeper`: the node. A `World` is a node together with the trace of the control plane.
  Each of its methods is one atomic action, requests and answers may be lost, the rest of the
  system moves between any two actions (`Elsewhere`), a journal records what a crash after each
  action would leave, and `talks` holds every request of the running method with the answer that
  reached it and the times: what a method decides is told by these.
- `Capability`: calls on any number of invokers over one reservation table, interleaved at
  every atomic section.
- `EventStream`, `Watch`: section 9.2 of the WHATWG HTML Living Standard as printed and parsed,
  and the cursor protocol over connections that break anywhere.
- `Instructions`, `Service`: the managed text block, and what the service makes of
  registrations and submissions.

Assumptions: time never goes back and one clock is shared by node and control plane; random
identifiers and tokens are new, non-empty and free of NUL; SHA-256 is injective, so a digest
stands for what was hashed; JSON values compare by canonical text; a lease token is a secret of
the node that holds it, although the network may deliver its earlier requests late or again;
the service uses one lease duration; timers fire when due.

## What turned out false, and when it is true

- A submission scope is a bijection only for tenants and projects without NUL
  (`Identity.ScopeCollides`).
- In memory a cancellation need not finish: a late call can put a cancelling attempt back in the
  queue, from where nothing finishes it. Reconciliation with room to spare finishes a cancelling
  run exactly when its lease is over and that has not happened (`CancelStall.ReconcileFinishes`),
  and it has happened exactly when the old holder of the unstarted attempt made a call other than
  a final report after the expiry (`CancelStall.StalledByLateCall`). The relational storage has no
  such state (`PostgresStore.CancellationFinishes`).
- A successful capability call carries the provider's output unless the provider failed with an
  empty text, which is recorded as a success (`Capability.SuccessIsTrue`).
- A watch that ends successfully need not have printed the terminal event (`Watch.EndMissed`). It
  has exactly when one of its connections served the frame of that event and all bytes up to the
  end of the frame arrived, behind no line that fills the client's buffer (`Watch.WatchRun`,
  `Watch.BroughtBy`); one response that the server ended and that arrived whole is enough.
- Writing the managed block is idempotent, and keeps what surrounds it, exactly when the text does
  not hold the closing marker (`Instructions.PutPut`, `Instructions.CompiledIsClean`).
- When a spool file was removed but the directory could not be synchronised, recovery stops with
  an error although that record is gone; it is then settled (`Outbox.Recover`).

## Model

| member | source | states |
|---|---|---|
| Identity.IdentityScoped | controlplane/event.go:12-18 | two events with a producer identity share it exactly when attempt, lease and first given id are the same, for attempts and leases without NUL |
| Identity.Join3Injective | controlplane/event.go:16 | identities of two (attempt, lease, id) triples agree only if the triples do, as long as attempt and lease hold no NUL |
| Identity.ScopeCollides | controlplane/memory.go:69 | a submission key identifies tenant, project and key exactly when tenant and project hold no NUL; otherwise a different request with the same scope exists |
| RunInvariants.ApplyKeeps | controlplane/memory.go:129-342 | no call by a lease holder breaks the run invariant (status pair, log shape, one terminal event, attempt history) or rewrites what was settled |
| RunInvariants.SweepKeeps | controlplane/memory.go:99-108 | the sweep of a claim keeps the run invariant and everything settled |
| RunInvariants.RecoverKeeps | controlplane/memory.go:161-189 | recovering an abandoned run keeps the run invariant; the next attempt gets a new name and the next number |
| RunInvariants.ApplySameHolder | controlplane/memory.go:129-342 | calls by lease holders never hand the lease to anybody else |
| RunInvariants.AttemptHistory | controlplane/memory.go:481-493 | attempts are numbered 1 to n, all but the last are lost, no name occurs twice, and n respects the retry policy |
| RunInvariants.StartsOnce | controlplane/memory.go:221-245 | no attempt starts twice, so a run starts at most max(1, MaxAttempts) times |
| RunInvariants.LogAt | controlplane/memory.go:247-273 | the log is numbered 1 to n, holds a producer identity once, and nothing a node sends follows the terminal event |
| RunInvariants.NewEntryKeeps | controlplane/memory.go:66-86 | a submitted run starts out satisfying the invariant |
| Protocol.NextKeeps | controlplane/memory.go:41-342 | every storage operation, with any arguments, choices and clock readings, keeps the invariant of the whole store and only advances it |
| Protocol.MapKeeps | controlplane/memory.go:88-191 | a step over all runs in which at most one receives a new lease keeps lease tokens distinct and the submit index exact |
| Protocol.RecoverAllKeeps | controlplane/memory.go:161-189 | the second pass of reconciliation keeps the invariant whichever runs the limit cuts off |
| Behaviours.Reachable | controlplane/memory.go:41-342 | the invariant holds in every state of every sequence of operations |
| Behaviours.TerminalIsFinal | controlplane/memory.go:624-626 | a finished run never changes status, attempt, result or error again |
| Behaviours.OneTerminalEvent | controlplane/memory.go:303-341 | the log holds the terminal event of the run's state exactly once, and none while the run is not finished |
| Behaviours.CancellationWins | controlplane/memory.go:596-622 | once a cancellation or deadline is recorded the run is cancelling or cancelled in every later state, on the same attempt |
| Behaviours.GrantedRun | controlplane/memory.go:98-125 | a claim hands out a queued run that is not cancelled and whose deadline lies ahead, under a token never issued before |
| Behaviours.NeverClaimedAgain | controlplane/memory.go:109-112 | a run with a recorded cancellation is never claimed again |
| Behaviours.SupersededForEver | controlplane/memory.go:117-119 | a superseded lease token never becomes current again |
| Behaviours.LeaseOpensOneRun | controlplane/memory.go:558-571 | a lease token of one run never opens another run |
| Behaviours.FencedOut | controlplane/memory.go:558-571 | without the current token every call is refused and changes nothing |
| Behaviours.SubmitIsStable | controlplane/memory.go:66-86 | two submissions, however far apart, answer the same run exactly when their scopes agree |
| Behaviours.GrantWithinCapacity | controlplane/memory.go:95-120 | a claim that grants leaves the node with no more live attempts than its capacity |
| Behaviours.AcceptedReportHolds | controlplane/memory.go:275-342 | an accepted completion or failure is what the run holds ever after |
| Behaviours.ReportsAgree | controlplane/memory.go:282-330 | two accepted reports of one run never disagree |
| Behaviours.DifferentReportRefused | controlplane/memory.go:282-330 | a report that differs from the committed one is refused without effect |
| Answers.StartAnswer | controlplane/memory.go:221-245 | a start is accepted exactly from the holder of an unstarted, uncancelled attempt whose lease still runs at the second look; a cancelled one is finished instead; what it changes, field by field |
| Answers.RenewAnswer | controlplane/memory.go:129-146 | a renewal is granted exactly to the holder of a live attempt whose lease still runs at the second look; it tells of a cancellation exactly when one is on record |
| Answers.CompleteAnswer | controlplane/memory.go:275-307 | a completion is accepted exactly while the run executes under the caller's lease, and again when it repeats the committed result; a cancelling run is refused as cancelled |
| Answers.FailAnswer | controlplane/memory.go:309-342 | a failure is accepted exactly from the holder of a live, uncancelled attempt, and again when it repeats the cause; a cancelling run is finished as cancelled |
| Answers.AcknowledgeAnswer | controlplane/memory.go:204-219 | a cancellation is acknowledged exactly by the holder of a running lease on a run with one on record |
| Answers.AppendAnswer | controlplane/memory.go:247-273 | an event is accepted exactly while the attempt executes, if its identity is new or was used for the very same event, and it is added exactly when the identity is new |
| Answers.RecordAnswer | controlplane/memory.go:381-395 | a bookkeeping event of the server is accepted exactly from the holder of a running lease, and adds itself only |
| Answers.NoLeaseAnswer | controlplane/memory.go:558-586 | without the current token, or too late, a call is refused; it changes nothing but an unstarted attempt whose lease is over, which is queued again under no lease |
| Dispatch.ClaimAnswer | controlplane/memory.go:88-127 | a claim answers that there is no work exactly when the node is full or no run waits for it, by the fields of the runs: status, cancellation, deadline, availability, lease, needs against offers; what it hands out waited for the node |
| Dispatch.SubmittedWaits | controlplane/memory.go:66-86 | a new run waits for every node that offers what it needs, from its submission until its deadline and no longer |
| Dispatch.ClaimSweeps | controlplane/memory.go:99-108 | a claim with room on the node times runs out, finishes cancellations and takes unstarted leases back, each exactly when due, and leaves every other run alone but the one it hands out |
| Dispatch.CancelEffect | controlplane/memory.go:596-622 | a cancellation finishes a queued attempt at once, is noted on a live one without touching it, and leaves a finished or cancelling run alone |
| Dispatch.ReconciledRun | controlplane/memory.go:148-191 | a reconciliation leaves a run alone, times it out, ends its cancellation, or finds its attempt lost: then the run fails exactly when its number was at least MaxAttempts, and is otherwise queued under the next number from now + backoff on, with its error cleared; with room to spare it leaves alone exactly what is none of these |
| Dispatch.ReconcileCounts | controlplane/memory.go:148-191 | the limit bounds the count, and the count bounds the runs that changed |
| Causes.SucceededBecause | controlplane/memory.go:275-307 | in every history a run has succeeded, with a result, exactly when a completion with that result was accepted |
| Causes.FailedBecause | controlplane/memory.go:309-342 | in every history a run was failed by its node, with a cause, exactly when a failure with that cause was accepted |
| Causes.LostBecauseExhausted | controlplane/memory.go:176-179 | in every history a run that failed without a report lost its last attempt, and that was attempt number max(1, MaxAttempts) |
| Causes.CancelledBecause | controlplane/memory.go:596-608 | in every history a cancellation is on record exactly when a client asked for one, or a claim or reconciliation found the deadline passed, while the run was queued or executing |
| Causes.StartedBecause | controlplane/memory.go:221-245 | in every history the present attempt has started exactly when its start was accepted |
| Causes.Submitted | controlplane/memory.go:66-86 | in every history a run keeps the request it was submitted with and the deadline its timeout gives |
| Causes.DeadlineEnforced | controlplane/memory.go:154-160 | in every history a reconciliation with room to spare leaves no run queued or executing whose timeout, counted from its submission, has passed |
| Chronicle.LogTellsAll | controlplane/memory.go:588-594 | in every history the event log alone tells the status of each run, the number and status of its attempt, and its node |
| Leases.LeasesNeverOverlap | controlplane/memory.go:88-146 | in every run of the control plane, the windows of two leases of one run, from claim to last renewed expiry, never overlap and never share a token |
| Leases.ActsInsideWindow | controlplane/memory.go:558-571 | a call that moves a live run was made with the token of its last window and before that window ends |
| Leases.NextQuiet | controlplane/memory.go:88-191 | only a grant or a renewal gives a run a lease that is still running |
| Leases.WindowsTrack | controlplane/memory.go:117-145 | at every moment the last window is the lease the run is under, and a queued run has outlived all its windows |
| HolderRights.HolderIsServed | controlplane/memory.go:558-571 | in every history, inside its window the holder of a lease on a run that nobody cancelled or ended is answered by the history alone: it may start once, from then on send events under new identities and complete, and renew and fail all the time |
| HolderRights.RepeatedReport | controlplane/memory.go:282-330 | in every history a report is accepted again under the same lease, however late, exactly when it repeats the accepted one, and no later report changes the run |
| HolderRights.RepeatedEvent | controlplane/memory.go:255-271 | in every history an event accepted with an identity is accepted again exactly when it is the same, and is not added again |
| Reconciliation.ReconcileSettles | controlplane/memory.go:148-191 | a reconciliation not cut short by its limit leaves nothing overdue and nothing abandoned |
| Reconciliation.ReconcileConverges | controlplane/memory.go:148-191 | a second reconciliation at the same moment answers 0 and changes no run |
| Reconciliation.RecoveriesBounded | controlplane/memory.go:148-191 | over its whole life a run is counted as recovered at most max(1, MaxAttempts) + 1 times |
| CancelStall.ReconcileFinishes | controlplane/memory.go:148-191 | a reconciliation with room to spare finishes a cancelling run exactly when its attempt was not put back in the queue and its lease is over |
| CancelStall.CallStalls | controlplane/memory.go:558-586 | a call puts a cancelling attempt back in the queue exactly when it is a call by the old holder, other than a final report, that comes after the lease of the unstarted attempt ran out |
| CancelStall.NextStalls | controlplane/memory.go:41-342 | no other operation of the storage makes a run stall |
| CancelStall.StalledByLateCall | controlplane/memory.go:558-586 | in every history a run has stalled by some moment exactly when such a late call was made to it before |
| CancelStall.LateCallStalls | controlplane/memory.go:566-568 | such a late call is refused as holding no lease, and stalls the run all the same |
| CancelStall.StalledForEver | controlplane/memory.go:98-125 | such a run stays cancelling for ever: no call, claim, cancellation or reconciliation ever finishes it |
| CancelStall.StallExample | controlplane/memory.go:566-586 | submit, claim, cancel, renew too late: a concrete run that stalls |
| MemoryStorage.ReleaseCounts | controlplane/memory.go:573-577 | when a live attempt is given up the counter of its node is positive, so the guard never hides a double release, and it stays the number of live attempts |
| MemoryStorage.MemoryStorage.RegisterNode | controlplane/memory.go:41-53 | registers or replaces a node in place, keeping its counter of live attempts |
| MemoryStorage.MemoryStorage.Submit | controlplane/memory.go:66-86 | takes the submit step of the protocol on the tables; answers the run as stored |
| MemoryStorage.MemoryStorage.Claim | controlplane/memory.go:88-127 | takes the claim step: sweeps every run, then leases any one claimable run, keeping every node counter equal to a recount |
| MemoryStorage.MemoryStorage.Renew | controlplane/memory.go:129-146 | takes the renewal step, with each reading of the clock in program order |
| MemoryStorage.MemoryStorage.Reconcile | controlplane/memory.go:148-191 | takes the reconciliation step: two passes that share one limit, in any iteration order |
| MemoryStorage.MemoryStorage.CancelRun | controlplane/memory.go:193-202 | takes the cancellation step and answers the run as it then stands |
| MemoryStorage.MemoryStorage.AcknowledgeCancellation | controlplane/memory.go:204-219 | takes the acknowledgement step |
| MemoryStorage.MemoryStorage.Start | controlplane/memory.go:221-245 | takes the start step, finishing a cancelling run instead of starting it |
| MemoryStorage.MemoryStorage.AppendEvent | controlplane/memory.go:247-273 | takes the append step: an identity already in the log is compared, not appended |
| MemoryStorage.MemoryStorage.Complete | controlplane/memory.go:275-307 | takes the completion step; a repeat of the committed result succeeds without effect |
| MemoryStorage.MemoryStorage.Fail | controlplane/memory.go:309-342 | takes the failure step; a cancelling run is finished as cancelled |
| MemoryStorage.MemoryStorage.EventsAfter | controlplane/memory.go:357-369 | answers the log without its first min(after, n) events |
| MemoryStorage.MemoryStorage.ListAttempts | controlplane/memory.go:481-493 | answers the lost attempts followed by the current one as it stands |
| PostgresStore.TransactKeeps | controlplane/postgres/store.go:452-575 | no transaction of a lease holder breaks a row, leaves an impossible status pair, or rewrites what was settled |
| PostgresStore.GrantIsExpireThenGrant | controlplane/postgres/store.go:206-262 | taking over a lease that ran out before the start is giving it back to the queue and claiming it in one step |
| PostgresStore.GrantRowKeeps | controlplane/postgres/store.go:206-262 | a claim keeps the row sound and everything settled |
| PostgresStore.CancelRowKeeps | controlplane/postgres/store.go:956-992 | a cancellation keeps the row sound; a queued attempt is finished at once |
| PostgresStore.RecoverRowKeeps | controlplane/postgres/store.go:376-423 | recovering an abandoned row keeps it sound |
| PostgresStore.CancellingIsAbandoned | controlplane/postgres/store.go:351-361 | a cancelling row always has a lease, and the second pass finds it exactly when that lease is over |
| PostgresStore.CancellationFinishes | controlplane/postgres/store.go:297-428 | one reconciliation with room to spare finishes a cancelling run that nobody holds locked exactly when its lease has run out |
| PostgresAnswers.StartedRow | controlplane/postgres/store.go:464-487 | a start is accepted exactly from the holder of a queued run's leased attempt whose lease still runs, and changes nothing otherwise; a cancelling run is refused as cancelled |
| PostgresAnswers.RenewedRow | controlplane/postgres/store.go:267-295 | a renewal is granted exactly to the holder of a live attempt whose lease still runs; it tells of a cancellation exactly when one is on record |
| PostgresAnswers.CompletedRow | controlplane/postgres/store.go:517-547 | a completion is accepted exactly while the run executes under the caller's lease, and again when it repeats the committed result, however late |
| PostgresAnswers.FailedRow | controlplane/postgres/store.go:549-575 | a failure is accepted exactly from the holder of a live, uncancelled attempt, and again when it repeats the cause; a cancelling run is left as it is |
| PostgresAnswers.AcknowledgedRow | controlplane/postgres/store.go:452-462 | a cancellation is acknowledged exactly by the last holder of a cancelled run, or of a cancelling one whose lease still runs |
| PostgresAnswers.RecordedRow | controlplane/postgres/store.go:705-720 | a bookkeeping event is accepted exactly from the holder of an executing attempt, or, for capabilities, of any running lease or finished run |
| PostgresAnswers.AppendedRow | controlplane/postgres/store.go:489-515 | an event is accepted exactly while the attempt executes, if its identity is new or was used for the very same event, and it is added exactly when the identity is new |
| PostgresAnswers.ReconciledRow | controlplane/postgres/store.go:297-428 | a reconciliation leaves a row alone, times it out, ends its cancellation, or finds its attempt lost and then fails or retries it by the same rule as in memory; with room to spare it leaves alone exactly what is none of these, or locked |
| PostgresAnswers.ReconciledOrder | controlplane/postgres/store.go:310-361 | under a limit no row is cancelled before one longer overdue, and none recovered before one whose lease ran out earlier |
| PostgresStore.Store.Submit | controlplane/postgres/store.go:126-177 | the unique constraint decides: an existing run of the scope is answered unchanged, otherwise the new one is inserted |
| PostgresStore.Store.Transition | controlplane/postgres/store.go:839-868 | lock, check, change or leave: the new rows and the answer are those of the guarded step, and every row evolves |
| PostgresStore.Store.Claim | controlplane/postgres/store.go:179-265 | by the fields of the rows: refuses an unknown node, a full node, and otherwise only when whatever fits the node has a hundred older eligible rows before it, so never when at most a hundred rows are eligible and an unlocked one matches; grants, under a token never issued before, the oldest row that fits, a lease that ran out before the start included |
| PostgresStore.Store.CancelRun | controlplane/postgres/store.go:430-450 | cancels the run it finds and nothing else |
| PostgresStore.Store.Reconcile | controlplane/postgres/store.go:297-428 | cancels the overdue rows with the earliest deadlines and then recovers the abandoned rows with the earliest expiries, as many as the limit allows and leaving locked rows out, counts both, and keeps every row sound |
| PostgresHistory.TablesSound | controlplane/postgres/store.go:126-575 | in every history of transactions every row is sound, with one of the status pairs of this storage, under a token that was issued |
| PostgresHistory.RowBetween | controlplane/postgres/store.go:126-575 | between any two moments a run keeps what was settled, and its token is kept, given up or one not issued before |
| PostgresHistory.SupersededForEver | controlplane/postgres/store.go:839-868 | a superseded token never becomes current again, and every transaction under it is refused and changes nothing |
| PostgresHistory.SettledForEver | controlplane/postgres/store.go:126-575 | a finished run never changes again, and a recorded cancellation leaves only cancelling and cancelled |
| PostgresHistory.LostBecauseExhausted | controlplane/postgres/store.go:392-423 | in every history a run that failed without a report lost its last attempt, and that was attempt number max(1, MaxAttempts) |
| PostgresHistory.LeasesNeverOverlap | controlplane/postgres/store.go:179-295 | in every history of transactions the windows of two leases of one run never overlap and never share a token |
| Producers.AppendOwn | controlplane/memory.go:247-273 | an append adds at most the caller's own event, only under the current lease, and then answers success |
| Producers.ApplyOwn | controlplane/memory.go:129-342 | every other call adds only events the server names itself |
| EmitOrder.UnissuedUnused | controlplane/memory.go:117-119 | before a token is issued no log holds an event sent under it |
| EmitOrder.AppendInStep | controlplane/memory.go:255-271 | an append under a lease adds the one awaited event or nothing |
| EmitOrder.StaysInStep | node/worker.go:185-205 | whatever else happens, late and repeated requests included, the log takes the events of a lease in the order they were asked for, without gaps |
| World.SafeStays | node/outbox.go:145-159 | no event ever sent is lost by anything the rest of the system does: it is spooled, in its log, or refused |
| World.LandedOnce | controlplane/memory.go:255-271 | a producer identity is at one place of its log only |
| World.AcceptedLands | controlplane/memory.go:255-271 | an accepted event is in the log when the call returns, whether this request or an earlier one put it there |
| World.World.Exchange | node/events.go:16-46 | one request lost, served with its answer lost, or answered; an answer is that of one step inside the call |
| World.World.Publish | node/outbox.go:109-134 | the atomic publication of a spooled event loses no event |
| World.World.Unlink | node/outbox.go:136-143 | the atomic removal of an event that landed or was refused loses no event |
| Outbox.DeliverEvent | node/events.go:16-46 | repeats the request at once and after each doubled pause until a final answer or until the next pause would pass five seconds or the caller's deadline; it reports exactly what the last answer was; success means the event is in its log, a stale answer that it was refused |
| Outbox.Save | node/outbox.go:72-134 | publishes exactly the storable events the disk accepts, never half of one, and never over an existing identity |
| Outbox.Remove | node/outbox.go:136-143 | removes the file unless the disk refuses first; a file that is not there is an error |
| Outbox.Deliver | node/outbox.go:145-159 | succeeds exactly when the event was storable, the disk did not fail and the last answer accepted it; then it has landed and is no longer spooled; otherwise the event stays spooled, refused or out of time |
| Outbox.FailureEnds | node/outbox.go:203-204 | whatever the answer to a failure report, nothing runs under the lease afterwards |
| Outbox.Replay | node/outbox.go:201-213 | sends the event, then the end of its attempt or the acknowledgement of its cancellation as the answer calls for; succeeds exactly when the last answer was final; then the event is in its log and its attempt was reported as interrupted, or the event was refused |
| Outbox.Recover | node/outbox.go:169-222 | a clean end leaves no file and every event landed or refused; each error has its cause: an unlistable directory, the end of the context, a record that is not intact, no final answer, a failed removal; it leaves the record it stopped on and all later ones as they were, unless only the removal failed |
| Outbox.Restart | node/outbox.go:165-222 | kill the node at any moment and restart it over its disk: no event it ever sent is lost or duplicated, and after a clean recovery each is in its log exactly once or was refused |
| Outbox.LandsExactlyOnce | node/outbox.go:165-222 | a landed event is in the log exactly once |
| FinalReport.AcceptedReport | node/final.go:12-36 | one accepted report decides what the run holds and which single terminal event its log has |
| FinalReport.RetryFinalReport | node/final.go:12-36 | repeats the report at once and after each doubled pause until a final answer or until the next pause would pass ten seconds or the caller's deadline; it returns exactly what the last answer was; success means the run holds the reported content |
| Cancellation.CancelIsTrue | controlplane/memory.go:297-299 | an answer that speaks of a cancellation is the truth from then on |
| Numerals.DecimalInjective | node/worker.go:196-201 | event ids formed from sequence numbers never coincide |
| Worker.EmitAll | node/worker.go:190-205 | emits are stop-and-wait and end at the first failure; emission fails exactly when some event was not encoded, spooled, accepted by the control plane and taken out again; the log holds the emitted events in order, and the spool never holds two events of the attempt |
| Worker.DeliveredEmitted | node/worker.go:190-205 | a delivered event completes the log up to it |
| Worker.Conclude | node/worker.go:232-282 | reports until answered, acknowledges exactly when the answer or the keeper spoke of a cancellation, and the outcome follows from these answers: committed content exactly when the report was accepted and nothing spoke of a cancellation |
| Worker.Begin | node/worker.go:121-172 | an unprepared plan is reported as failed with its cause; otherwise the start is asked for, and a refusal that speaks of cancellation is acknowledged |
| Worker.CommitAfterEvents | node/worker.go:269-282 | every success committed under the lease, acknowledged or not and whenever it is served, comes when every event emitted during execution is in the log, in emit order and without gaps |
| Worker.NoSuccess | node/worker.go:190-205 | a holder that has not asked for a success has none committed under its lease |
| Worker.ReportingStays | node/worker.go:269-282 | once the holder asked for its success and sends nothing more, late and repeated copies of its requests never let a success overtake the events |
| Worker.RunOnce | node/worker.go:117-283 | from claim to end, told by the requests made and the answers heard: a success is reported exactly when the start, every event and every upload were accepted and the runtime produced a result, a failure with its cause exactly when it could not be prepared or was started and that did not happen, and nothing else is reported; the answers decide the outcome; every success under the lease, acknowledged or not, now or by a request still on its way, follows all events; the spool holds at most one event throughout |
| LeaseKeeper.Wait | node/worker.go:321-327 | a third of what remains, rounded down, between 10 ms and 5 s: two thirds are left after the wait unless less than 30 ms remain |
| LeaseKeeper.ToldExpiry | node/worker.go:314-339 | the expiry told by a claim or a renewal is never beyond the window the lease was granted, then or later |
| LeaseKeeper.NoRivalBeforeDeadline | node/worker.go:313-359 | while a node believes in its lease nobody else is granted the run: a later claim has another token and comes at or after the believed deadline |
| LeaseKeeper.KeepLease | node/worker.go:313-359 | with the worker's own calls under the lease and all others going on beside it: every renewal is sent when its wait is over, the loop goes by the last expiry it was told and ends for the reason it heard last, with a cancellation exactly when told of one; the belief never exceeds what was granted; on every way out the loop ends no later than deadline + 10 ms, and no rival was granted the run before the deadline |
| Capability.FindGrant | capability.go:165-176 | the first grant that covers the call decides, in scope or not; a later wider one is not consulted |
| Capability.ActKeeps | capability.go:76-163 | every atomic section of every call keeps the invariant of all invokers and the reservation table |
| Capability.AtMostOnce | capability.go:110-136 | over all interleavings of calls on any number of invokers and attempts, a key of a run executes at most once |
| Capability.SuccessesAgree | capability.go:129-154 | successful calls with one key return the same call and output, and the provider ran exactly once for them |
| Capability.SuccessIsTrue | controlplane/postgres/store.go:705-721 | a success carries the provider's own output exactly when the provider did not fail with an empty text |
| Capability.SilentFailureSucceeds | controlplane/postgres/store.go:706-711 | a concrete run in which a provider failure without text is answered as a success to another invoker |
| Capability.AnswerFollows | capability.go:89-155 | over all interleavings, what a call answers is decided by its own reservation, provider and link, by the row it found, or by the call that it joined |
| Capability.ProviderIsHeard | capability.go:135-154 | a call that ran its provider and could store the outcome answers the provider's output as a success with its call id, or the provider's error, and the row holds it |
| Capability.OthersRun | capability.go:95-103 | while a call takes no step the others leave it where it is, and take away no row, outcome, owner or published answer |
| Capability.ClosedOnce | capability.go:157-163 | a registered key's channel is closed exactly once when its call is over, and not before |
| Capability.Capabilities.Register | capability.go:89-106 | joins the call that already has the key, refuses a different one, or registers as its first |
| Capability.Capabilities.ReserveCapability | controlplane/postgres/store.go:676-703 | inserts the row unless the key has one; a different request is refused and leaves the table as it was |
| Capability.Capabilities.FinishCall | capability.go:157-163 | publishes the answer under the key and closes its channel |
| Capability.Capabilities.Call | capability.go:76-155 | a missing provider, an empty key and a call outside the grants each have their own error and touch nothing; otherwise, with any other calls between its sections, the answer is decided by what the call's own reservation, provider and link did, by the row it found, or by the call it joined: the provider's output as a success when the call ran it and its outcome was stored |
| EventStream.ParsePrint | transport/httpapi/client.go:233-263 | parsing a whole printed stream of lines that fit the buffer, with keepalives anywhere between events, gives back exactly the events |
| EventStream.ParseCut | transport/httpapi/client.go:233-263 | cut the stream at any byte: exactly the events printed whole, before any line that fills the buffer, are dispatched; an incomplete one is discarded |
| EventStream.CountArrives | transport/httpapi/client.go:233-263 | an event is dispatched exactly when all bytes up to the end of its frame arrived and no line up to there fills the buffer |
| EventStream.ReadItem | transport/httpapi/handler.go:221 | one printed frame is read as one event and leaves the reader empty, whatever follows |
| EventStream.TakeLine | transport/httpapi/client.go:238-262 | one line collects data, dispatches it at a blank line, or is ignored |
| EventStream.SelectRises | transport/httpapi/client.go:248-254 | handled events rise strictly above the cursor, so none is handled twice |
| EventStream.StreamEvents | transport/httpapi/client.go:233-270 | hands on exactly the decoded events beyond the cursor; a nil return means a terminal one was among them, an interruption that none was, and only a line that fills the buffer or an event that cannot be decoded or handled is an error |
| Watch.WriteEvents | transport/httpapi/handler.go:212-228 | writes each event beyond the cursor once and moves the cursor to the last |
| Watch.StreamRun | transport/httpapi/handler.go:183-263 | the response is the log beyond the cursor, once and without gaps, up to the last read; the server ends it exactly when it finds the run over before the client is gone, and has then read the log after the end |
| Watch.CompleteHasEnd | transport/httpapi/handler.go:241-247 | a log read after the run ended holds its terminal event |
| Watch.Connect | transport/httpapi/client.go:201-271 | what arrives over one connection, however cut, continues the log exactly where the cursor stood; a response that the server ended and that arrived whole brings all of a finished run's log |
| Watch.WatchRun | cmd/relayctl/main.go:489-526 | over any disconnects the printed events are the log from its first event on, without gaps or repetition, as far as the connections brought it; a watch that ends with the run over has printed the terminal event exactly when one connection served its frame and brought all bytes up to its end |
| Watch.BroughtBy | cmd/relayctl/main.go:489-526 | an event of the log was printed exactly when one connection served its frame and all bytes up to its end arrived |
| Watch.EndMissed | cmd/relayctl/main.go:497-514 | a watch may end successfully without the terminal event: the stream breaks at once and the run is found finished |
| Watch.TerminalName | transport/httpapi/client.go:253 | a client takes an event for the end exactly when the server wrote it as such or a node used its name |
| Instructions.FirstBegin | instructions.go:99 | the opening marker is found where the block was put, not in what precedes it |
| Instructions.Written | instructions.go:90-108 | a written block is found again, and found whole exactly when its text does not hold the closing marker |
| Instructions.OutsideSurvives | instructions.go:99-115 | all text outside the block survives a write exactly when the written text does not hold the closing marker |
| Instructions.PutGet | instructions.go:81-116 | the written text is read back from between the markers, whatever the file held before, exactly when it does not hold the closing marker |
| Instructions.PutPut | instructions.go:81-116 | writing two texts is writing the second only, for every second text, exactly when the first does not hold the closing marker |
| Instructions.RewriteIsIdle | instructions.go:81-116 | repeating a write changes nothing exactly when the text does not hold the closing marker |
| Instructions.UncleanGrows | instructions.go:90-109 | the closing marker itself, written twice, grows the file |
| Instructions.IncompleteMarker | instructions.go:101-104 | the write fails exactly on a file whose first opening marker has no closing marker behind it |
| Instructions.AppendInstruction | instructions.go:39-53 | a fragment is shown under its title, or its id, unless its content is blank |
| Instructions.Compile | instructions.go:19-37 | the stable text is the opening and all shown fragments of the four layers in order; the prompt is the input and the turn fragments |
| Instructions.CompiledIsClean | instructions.go:19-53 | compiled instructions can be written again and again exactly when no shown fragment mentions the closing marker |
| Service.RegisterNode | controlplane/service.go:101-123 | names a nameless runtime by node and provider, fills in the capacity, accepts exactly the registrations whose runtime names end up distinct, and never an empty node name |
| Service.Submit | controlplane/service.go:129-150 | what storage receives has at least one attempt, the given backoff, and the given positive timeout or none; each error has its exact cause |

## Left out

- PostgresStore.Store.Claim: the selection of candidates and the lock on the one taken are one atomic step, and rows created at the same time are taken in any order.
- PostgresStore.Store.Reconcile: rows with the same deadline or the same expiry are taken in any order; which rows are locked by others is an argument.
- Outbox.Save: the byte limits of the spool and of a whole record are covered by disk faults, not by counting bytes.
- Outbox.List: the order of file names is not modelled; nothing depends on it.
- Worker.RunOnce: starts from a claimed assignment; workspace, compiler and executor failures before the start are one cause text, and two workers sharing one spool are not modelled.
- EventStream.StreamEvents: characters stand for bytes, and JSON decoding is a given partial function.
- Watch.WatchRun: HTTP statuses other than a served stream, and the printing itself, are not modelled.
- Capability.Capabilities.Call: invokers without reservation hooks, the events a call emits, and the effect class of a grant are not modelled.
- MemoryStorage.MemoryStorage.RegisterNode: for non-empty node names only, which is all that the service lets through (Service.RegisterNode); releasing the empty node name of a queued attempt would lower the counter of a node that has it. Labels, versions and runtimes are folded into the set a request's needs are compared with.
- MemoryStorage.MemoryStorage.Reconcile: for moments that have come, which is what the service passes (controlplane/service.go:164-169); at a moment ahead of the clock a lease would be taken back before it runs out.
- The artifact, interaction and capability tables of the in-memory storage; their log entries are steps of the protocol. Its reservation answers a pending call as executable again, so at-most-once execution is stated for the relational table only.
- SQL text, isolation levels, row locking beyond skipped rows, migrations: each transaction is one atomic step.
- Creation times of events and the data of server events beyond what the protocol reads.
- HTTP routing, authentication, error mapping and JSON encoding: network plumbing.
- Blob stores, artifact bytes, executors, workspaces and tool bridges: foreign processes and files.
- Version constraints and label matching: one abstract comparison of needs and offers.
- The outbox lock, temporary files and synchronisation details: publication and removal are atomic actions that may fail before or after taking effect.
- The embedded engine and its store, the console, the installer and the rest of the command line: they would add only easy members.
