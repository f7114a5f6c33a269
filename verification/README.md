# AiphaBee agent sandbox: verified models

This project models the parts of AiphaBee that keep agent runs isolated, bounded and accounted for, and
proves what they keep in every interleaving: the sandbox lease protocol, the durable handoff of sandbox
outputs, the callback transport, the runner's budgets, the run guard, the client lock, the exec stream, the
sweep that measures sandbox concurrency, and the research agent's lifecycle lease.

`dafny verify dfyconfig.toml` checks everything.

## How it is modelled

| file | system part | form |
|---|---|---|
| `LeaseRegistry.dfy`, `LeaseReplies.dfy` | lease registry | transition function, the durable object as a class proved against it, run theorems about records and answers |
| `SandboxProtocol.dfy` | create, execute, kill and destroy on one lease | state machine, one step per await |
| `GrantIsolation.dfy`, `ExecutionOrder.dfy`, `KillDelivery.dfy`, `SandboxLifetime.dfy`, `LeaseOperations.dfy` | what every run of that protocol keeps, and what its operations come to | invariants and run theorems |
| `EventQueue.dfy` | execution event queue, its producer, bounded file reads | class, loops over an array, run theorems |
| `Options.dfy`, `Outcomes.dfy` | optional values, flags, how requests and statements end | datatypes |
| `Strings.dfy`, `HandoffKeys.dfy` | JavaScript strings, UTF-8, record ids and storage keys | functions and injectivity lemmas |
| `HandoffSaga.dfy`, `Handoff.dfy`, `HandoffRun.dfy`, `HandoffRecords.dfy`, `HandoffSample.dfy` | durable handoff | stores and sandbox as classes, loops, run theorems |
| `Transport.dfy`, `TransportMeaning.dfy` | callback transport | nested read loop proved against a fold over the whole text; what each line of JSON says |
| `RunnerBudget.dfy`, `RunnerOutcomes.dfy` | runner callbacks and event stream | class for the callback variables, state machine for a run |
| `RunGuard.dfy`, `RunGuardAnswers.dfy` | run guard and the bridge's destroy window | transition function, class, state machine of callers |
| `ClientLock.dfy` | promise-chain mutex | class, state machine of calls |
| `ExecStream.dfy` | exec result printer and parser | loops, round trips |
| `SweepLine.dfy` | concurrency sweep | in-place sort and loop, proved against a count of intervals |
| `Lifecycle.dfy`, `LifecycleCalls.dfy` | research agent lifecycle | state machine, one step per SQL statement or remote call |

Every durable object request, every SQL statement and every await boundary is one atomic step; all
theorems quantify over every sequence of steps, so over every interleaving.

### What is assumed of the outside

- A provider call takes effect at most once, and only while it is outstanding. A call that was settled has no
  later effect; a call that timed out is still outstanding and may take effect and settle later. A rejected
  call may have had its effect.
- `killProcess` resolving means the process was gone when the call took effect; an exit is reported only for a
  process that is gone; destroying a sandbox ends its processes and drops its outbound rule. A process may end
  and a rule may be lost at any other time. Using a sandbox again may start it again.
- A registry or guard request is atomic. Its reply may be lost, and it may not be sent at all; it does not
  take effect after its caller saw it fail. A database statement or store call may fail before or after its effect.
- `newId` never repeats. Ids it makes and request ids are only compared for equality, so they are numbers here.
- SHA-256 is an arbitrary function to 32 bytes. Where a theorem needs that it does not collide, it says so for
  the inputs at hand (`HandoffRun.NoCollision`); injectivity results name the colliding inputs instead.
- `Date.parse`, `JSON.parse` and `String()` of an unusual value are parameters. `toISOString` gives a
  text of its documented shape, years beyond four digits signed.

### Where the code does less than its comments or documents say

- **A leak in `create`.** When `createSession` times out, the catch block destroys the sandbox and the
  continuation of the late creation removes the record if the creation is rejected, trusting that earlier
  destroy. If the creation took effect after the destroy did and was then rejected, the sandbox is alive and its
  record is gone. `SandboxLifetime.LeakHappens` is such a run; `SandboxLifetime.LeakExactly` says that a lease
  is leaked exactly when this removal reached its pending record and the creation had landed after the destroy.
- **An unknown approval status is treated as approved.** Validation checks every field of a decision but its
  status, and processing compares the status only with `rejected`. `HandoffRun.OtherStatusAccepted` shows that
  such a decision passes, `HandoffRun.WelcomingWrites` that its candidate can be persisted, and
  `HandoffRun.WritesApprovedExactly` that an unknown status is the only way a write is not approved. A scan
  status is compared only with `error` and `unsafe`, but the record table then refuses one that is not `clean`.
- **Record ids forget lone surrogates.** Decision ids are validated as opaque text, which admits unpaired
  surrogates; UTF-8 encoding replaces them, so two different decision ids can have the same preimage.
  `HandoffKeys.PreimageExact` gives the exact condition, `HandoffKeys.SurrogatesCollide` an example.
- **Obtained remote ids can be lost.** When the statement that finalizes a success fails, the failure is
  finalized with the ids the claim returned. `Lifecycle.IdsLostExactly` says that within the request's own
  ownership period this is exactly when obtained ids are lost; `Lifecycle.IdsLost` is such a run. A remote failure
  keeps them whenever its update takes effect while the lease is still the request's.
- **A failure can put back a stale status.** `claim` reads the status, then claims; a failure that is not retryable
  writes the status read. If another request claims and finalizes in between, its result is overwritten.
  `Lifecycle.RestoresExactly` says when the replaced status is restored; in `Lifecycle.StatusOverwritten` a completed
  activation reads as disabled.

## Model

| member | source | states |
|---|---|---|
| `LeaseRegistry.RegistryObject.Handle` | apps/sandbox-bridge/src/lease-registry.ts:131-282 | each request path replaces the stored record and answers exactly as the transition function says, error replies included |
| `LeaseRegistry.MatchesExactly` | apps/sandbox-bridge/src/lease-registry.ts:102-125 | a record matches a lease if and only if backend, lease id and every field of the grant agree |
| `LeaseRegistry.SnapshotInjective` | apps/sandbox-bridge/src/lease-registry.ts:85-100 | two grants with the same snapshot are the same grant |
| `LeaseRegistry.StepAdvances` | apps/sandbox-bridge/src/lease-registry.ts:142-281 | a request keeps the record consistent (resume status set exactly while destroying, killed binds no process, ready with a kill implies a bound process), never lowers its rank, and removes only a pending record |
| `LeaseRegistry.RunAdvances` | apps/sandbox-bridge/src/lease-registry.ts:142-281 | over any sequence of requests: rank pending, ready, killed, destroyed only grows, a requested kill stays, destroyed is absorbing, identity fields never change |
| `LeaseRegistry.RunMonotone` | apps/sandbox-bridge/src/lease-registry.ts:142-281 | any two points of a run that starts with the reserved record are ordered that way |
| `LeaseRegistry.ForeignLeaseChangesNothing` | apps/sandbox-bridge/src/lease-registry.ts:150-156 | a request without a matching lease is blocked and changes nothing |
| `LeaseRegistry.StepEventFits` | apps/sandbox-bridge/src/lease-registry.ts:166-203 | a request binds a process only when none is bound and releases only the bound one |
| `LeaseRegistry.BindingsAlternate` | apps/sandbox-bridge/src/lease-registry.ts:166-229 | over any run, bindings and releases of processes alternate |
| `LeaseReplies.AnswersAreTrue` | apps/sandbox-bridge/src/lease-registry.ts:142-281 | the owner of a record is blocked exactly where its state allows no such step, and every other answer says what the record was and has become |
| `LeaseReplies.AnswersOverRuns` | apps/sandbox-bridge/src/lease-registry.ts:142-281 | in every run from the reservation a kill is told the process bound last, and every answer that names a sandbox or session names the lease's own |
| `LeaseReplies.ReservesOnce` | apps/sandbox-bridge/src/lease-registry.ts:131-149 | only POST requests are handled, and a record is reserved only where there is none |
| `LeaseReplies.AbortUndoes` | apps/sandbox-bridge/src/lease-registry.ts:235-270 | aborting a freshly begun destroy gives back the record as it was |
| `GrantIsolation.StepKeeps` | apps/sandbox-bridge/src/cloudflare-sandbox-backend.ts:346-543 | every step of executions, kills, destroys and the create call keeps the ownership invariant between rule, processes and record |
| `GrantIsolation.GrantIsolated` | apps/sandbox-bridge/src/cloudflare-sandbox-backend.ts:366-410 | in every run, while a Tool Gateway rule set for one execution is in effect or may still land, no other execution's process is live or may start, and that execution is bound or the lease can begin no process any more |
| `GrantIsolation.NeverBeginsAgain` | apps/sandbox-bridge/src/lease-registry.ts:166-179 | once the rank is killed or destroyed, no later request sequence lets a process begin |
| `GrantIsolation.RuleServesItsProcess` | apps/sandbox-bridge/src/cloudflare-sandbox-backend.ts:366-484 | a run exists in which a rule is in effect while its own process runs, and after which the lease is free again, without rule or process |
| `ExecutionOrder.OwnRunOnly` | apps/sandbox-bridge/src/cloudflare-sandbox-backend.ts:378-414 | in every run a rule in effect or asked for is that of an execution whose egress run owns the lease, a process is live or asked for only after old rules were removed and its own was confirmed, and beside a deny_all process there is no rule |
| `ExecutionOrder.WrongIdStops` | apps/sandbox-bridge/src/cloudflare-sandbox-backend.ts:457-503 | a process that came up under another id is sent SIGTERM, never marked running |
| `ExecutionOrder.StepsOfExecution` | apps/sandbox-bridge/src/cloudflare-sandbox-backend.ts:366-543 | what can happen to an execution at each of its awaits, exactly |
| `ExecutionOrder.BeginLeads` | apps/sandbox-bridge/src/cloudflare-sandbox-backend.ts:369-384 | an execution goes on if and only if its begin is confirmed and its sandbox opens, and is bound if and only if it is confirmed |
| `ExecutionOrder.MarkLeads` | apps/sandbox-bridge/src/cloudflare-sandbox-backend.ts:458-470 | a marked process is awaited or signalled, by the kill flag; any other answer sends SIGTERM |
| `ExecutionOrder.FinishLeads` | apps/sandbox-bridge/src/cloudflare-sandbox-backend.ts:462-468 | a finished kill lets the execution wait for the exit, any other answer sends SIGTERM |
| `ExecutionOrder.ClearLeads` | apps/sandbox-bridge/src/cloudflare-sandbox-backend.ts:527-542 | giving up the binding unbinds the execution's own process only, and the queue is closed whatever the answer |
| `ExecutionOrder.FailureLeads` | apps/sandbox-bridge/src/cloudflare-sandbox-backend.ts:472-500 | an exception signals the process, kills it by id if it may have started, or confirms that there is nothing to end |
| `ExecutionOrder.ThrowSettles` | apps/sandbox-bridge/src/cloudflare-sandbox-backend.ts:448-456 | a rejection settles the awaited call only, a timeout none |
| `ExecutionOrder.CatchConfirms` | apps/sandbox-bridge/src/cloudflare-sandbox-backend.ts:474-499 | after an exception the end of the process is confirmed only by an exit waited for or an answered kill |
| `ExecutionOrder.FinallyReleases` | apps/sandbox-bridge/src/cloudflare-sandbox-backend.ts:511-542 | the binding is given up if and only if the end, the clean rule and a certain start are confirmed |
| `ExecutionOrder.ExitLeads` | apps/sandbox-bridge/src/cloudflare-sandbox-backend.ts:469-542 | after an exit the rule is removed once more exactly if there is one to remove |
| `KillDelivery.NoLostKill` | apps/sandbox-bridge/src/cloudflare-sandbox-backend.ts:475-484 | in every run, once a kill was accepted while a process was starting, the registry keeps saying so and the runner never waits for the exit without having issued SIGTERM |
| `KillDelivery.KillIsReadOrRefused` | apps/sandbox-bridge/src/cloudflare-sandbox-backend.ts:471-503 | marking such a process running either reads the kill or is refused, and both lead to SIGTERM next, whatever happens to the reply |
| `KillDelivery.AcceptedKillIsNoted` | apps/sandbox-bridge/src/cloudflare-sandbox-backend.ts:603-627 | every kill accepted while the bound process is starting is the kind of kill the other two speak of |
| `SandboxLifetime.StepKeeps` | apps/sandbox-bridge/src/cloudflare-sandbox-backend.ts:252-338 | every step keeps the invariant that ties the create call's stage, the sandbox and the record together |
| `SandboxLifetime.NoLeak` | apps/sandbox-bridge/src/cloudflare-sandbox-backend.ts:252-338 | in every run a sandbox that is alive or may still come alive has a record, unless createSession took effect after the clean-up destroy had and was then rejected |
| `SandboxLifetime.LeakExactly` | apps/sandbox-bridge/src/cloudflare-sandbox-backend.ts:285-328 | in every run a lease is leaked if and only if the late rejection's removal reached its pending record and createSession had taken effect after the clean-up destroy |
| `SandboxLifetime.LeakHappens` | apps/sandbox-bridge/src/cloudflare-sandbox-backend.ts:288-328 | a run that leaks |
| `SandboxLifetime.OnlyConfirmed` | apps/sandbox-bridge/src/cloudflare-sandbox-backend.ts:661-722 | a record disappears only after a confirmed destroy with no creation outstanding, destroyed only after a confirmed destroy, and the results of create, kill and destroy stay true for ever |
| `LeaseOperations.KillFinds` | apps/sandbox-bridge/src/cloudflare-sandbox-backend.ts:603-634 | what a kill reports or calls first, exactly, for every record and every fate of its request |
| `LeaseOperations.KillSucceeds` | apps/sandbox-bridge/src/cloudflare-sandbox-backend.ts:635-659 | a kill whose calls go through ends the process it named, and succeeds exactly if the lease was still ready |
| `LeaseOperations.KillCallExact` | apps/sandbox-bridge/src/cloudflare-sandbox-backend.ts:635-659 | every event of a kill's provider call and what it leaves; a failure is retryable and leaves the lease alone |
| `LeaseOperations.DestroyFinds` | apps/sandbox-bridge/src/cloudflare-sandbox-backend.ts:661-685 | what a destroy reports or calls first, exactly, fresh or recovering |
| `LeaseOperations.DestroySucceeds` | apps/sandbox-bridge/src/cloudflare-sandbox-backend.ts:686-722 | a destroy whose calls go through leaves nothing alive, no process, no rule, and the lease destroyed |
| `LeaseOperations.DestroyFails` | apps/sandbox-bridge/src/cloudflare-sandbox-backend.ts:691-709 | a rejected destroy is aborted exactly if it was fresh, which restores the status; one that timed out is not |
| `LeaseOperations.DestroyCallExact` | apps/sandbox-bridge/src/cloudflare-sandbox-backend.ts:686-709 | every event of a destroy's provider call and what it leaves |
| `LeaseOperations.CreateHears` | apps/sandbox-bridge/src/cloudflare-sandbox-backend.ts:252-284 | a sandbox is created only after a fresh reservation, and create succeeds if and only if ready is confirmed |
| `LeaseOperations.CreateCallExact` | apps/sandbox-bridge/src/cloudflare-sandbox-backend.ts:285-338 | every event of the create call and where it leads: clean-up, late continuation, removal only after a confirmed destroy |
| `EventQueue.AsyncEventQueue.Push` | apps/sandbox-bridge/src/cloudflare-sandbox-backend.ts:114-129 | a push is refused exactly when closed or, for output, at 1,024 queued events or past 1,048,576 bytes; otherwise it is appended and wakes the consumer |
| `EventQueue.AsyncEventQueue.Close` | apps/sandbox-bridge/src/cloudflare-sandbox-backend.ts:131-138 | closing ends the queue once and wakes the consumer |
| `EventQueue.AsyncEventQueue.Next` | apps/sandbox-bridge/src/cloudflare-sandbox-backend.ts:140-152 | the consumer takes the oldest event, ends when the queue is closed and empty, or parks |
| `EventQueue.QueueInOrder` | apps/sandbox-bridge/src/cloudflare-sandbox-backend.ts:104-153 | in every interleaving yielded events followed by queued ones are the accepted ones in order, the byte count is their sum and bounded, at most 1,024 outputs are queued, a parked consumer has nothing to do |
| `EventQueue.AcceptedExactly` | apps/sandbox-bridge/src/cloudflare-sandbox-backend.ts:114-129 | after any turns an event is accepted if and only if the queue was not closed and an output finds fewer than 1,024 waiting events and room for its bytes |
| `EventQueue.NeverStuck` | apps/sandbox-bridge/src/cloudflare-sandbox-backend.ts:140-152 | a consumer's next turn yields the oldest waiting event, or ends after the close, or parks when there is nothing |
| `EventQueue.ClosedAcceptsNothing` | apps/sandbox-bridge/src/cloudflare-sandbox-backend.ts:115-115 | nothing is accepted after the close |
| `EventQueue.ClosedDrains` | apps/sandbox-bridge/src/cloudflare-sandbox-backend.ts:140-152 | a closed queue yields every accepted event and then ends |
| `EventQueue.SequencesContiguous` | apps/sandbox-bridge/src/cloudflare-sandbox-backend.ts:432-542 | accepted events are numbered 0, 1, 2, … and the terminal event is accepted exactly once before the close |
| `EventQueue.ConsumerSees` | apps/sandbox-bridge/src/cloudflare-sandbox-backend.ts:469-542 | a consumer that reached the end has all numbers and exactly one terminal event |
| `EventQueue.EventsCarryReports` | apps/sandbox-bridge/src/cloudflare-sandbox-backend.ts:436-532 | every accepted event carries a report of the execution unchanged |
| `EventQueue.WholeExecution` | apps/sandbox-bridge/src/cloudflare-sandbox-backend.ts:432-542 | an execution with an output and an exit whose consumer gets both and ends |
| `EventQueue.CollectBounded` | apps/sandbox-bridge/src/cloudflare-sandbox-backend.ts:206-227 | a stream is returned as its concatenated bytes exactly when it is within the limit |
| `Strings.EncodeInjective` | packages/agent-runtime/src/durable-memory-artifact-handoff.ts:385-390 | well-formed texts have different UTF-8 encodings |
| `HandoffKeys.SegmentsExact` | packages/agent-runtime/src/durable-memory-artifact-handoff.ts:233-240 | what a safe path segment is: its characters and length, and neither `.` nor `..` |
| `HandoffKeys.MediaUnitsExact` | packages/agent-runtime/src/durable-memory-artifact-handoff.ts:235-259 | the characters of a media type |
| `HandoffKeys.PreimageExact` | packages/agent-runtime/src/durable-memory-artifact-handoff.ts:495-511 | validated parts share an id preimage if and only if they are equal, decision ids being compared by their UTF-8 bytes |
| `HandoffKeys.PreimageInjective` | packages/agent-runtime/src/durable-memory-artifact-handoff.ts:495-511 | with well-formed decision ids the preimage determines every part |
| `HandoffKeys.SurrogatesCollide` | packages/agent-runtime/src/durable-memory-artifact-handoff.ts:242-249 | two decision ids that pass validation and share a preimage |
| `HandoffKeys.RecordIdExact` | packages/agent-runtime/src/durable-memory-artifact-handoff.ts:495-513 | record ids agree if and only if SHA-256 agrees on the preimages |
| `HandoffKeys.StorageKeyInjective` | packages/agent-runtime/src/durable-memory-artifact-handoff.ts:374-383 | storage keys agree if and only if tenant, user, run, kind, id and content hash do |
| `HandoffKeys.NoCrossTenantPrefix` | packages/agent-runtime/src/durable-memory-artifact-handoff.ts:374-383 | a key starts with a tenant's prefix if and only if it is that tenant's |
| `HandoffKeys.DistinctCandidatesDistinctKeys` | packages/agent-runtime/src/durable-memory-artifact-handoff.ts:494-522 | two candidates of a run share a key only through a SHA-256 collision on their preimages |
| `HandoffSaga.ObjectStore.Put` | apps/worker/src/durable-memory-artifact-handoff.ts:263-267 | a put that works or fails late stores the bytes, one that fails early does not |
| `HandoffSaga.ObjectStore.Delete` | apps/worker/src/durable-memory-artifact-handoff.ts:250-252 | a delete that works or fails late removes the object |
| `HandoffSaga.RecordStore.Insert` | apps/worker/src/durable-memory-artifact-handoff.ts:193-244 | an insert takes effect unless it fails early, an id or a storage key of the tenant is taken, or the scan's status is not clean |
| `HandoffSaga.RecordStore.FindActiveById` | apps/worker/src/durable-memory-artifact-handoff.ts:177-191 | a row is found if and only if the id has one, of that tenant, undeleted and unexpired, and then it is that row |
| `HandoffSaga.CommitItem` | packages/agent-runtime/src/durable-memory-artifact-handoff.ts:546-621 | the writes and compensations end and leave the stores exactly as the saga function says |
| `HandoffSaga.CommitSettles` | packages/agent-runtime/src/durable-memory-artifact-handoff.ts:546-621 | under every pattern of failures an item is persisted with object and row, or rejected with neither, or its key is reported, and nothing else is touched |
| `Handoff.ValidateInput` | packages/agent-runtime/src/durable-memory-artifact-handoff.ts:298-331 | the input is accepted if and only if the lease is run-owned with safe ids and there are 1 to 16 valid candidates with distinct ids |
| `Handoff.ValidateApprovalSet` | packages/agent-runtime/src/durable-memory-artifact-handoff.ts:333-362 | the approvals are accepted if and only if they match the run and decide each of as many known candidates once, their status being any, and the result maps candidates to their decisions |
| `Handoff.ApprovalsMatchCandidates` | packages/agent-runtime/src/durable-memory-artifact-handoff.ts:333-362 | accepted approvals decide exactly the candidates: every candidate finds a decision of its own, and every decision is the one found for its candidate |
| `Handoff.ProcessApprovedCandidate` | packages/agent-runtime/src/durable-memory-artifact-handoff.ts:420-622 | one candidate is read once and ends as the gates and the saga say |
| `HandoffRun.CleanupSandbox` | packages/agent-runtime/src/durable-memory-artifact-handoff.ts:404-418 | destroy is called once and only its success is release-safe |
| `HandoffRun.ProcessCandidates` | packages/agent-runtime/src/durable-memory-artifact-handoff.ts:666-690 | the candidates are processed in order until one throws |
| `HandoffRun.HandoffAndDestroy` | packages/agent-runtime/src/durable-memory-artifact-handoff.ts:624-708 | on every path, errors included, the sandbox is destroyed exactly once, and result and stores are those of the handoff function |
| `HandoffRun.WritesPassGates` | packages/agent-runtime/src/durable-memory-artifact-handoff.ts:426-544 | every write is for a candidate that was not rejected, with a size in its kind's range and a scan without error or alarm of the same classification, and its record describes those bytes |
| `HandoffRun.OtherStatusAccepted` | packages/agent-runtime/src/durable-memory-artifact-handoff.ts:347-358 | a valid approval set stays valid when any decision's status is replaced by an unknown one |
| `HandoffRun.WelcomingWrites` | packages/agent-runtime/src/durable-memory-artifact-handoff.ts:670-683 | for every candidate that is not rejected there is an outside, with its clock at 1970-01-01T00:00:00.000Z, for which it is persisted |
| `HandoffRun.WritesApprovedExactly` | packages/agent-runtime/src/durable-memory-artifact-handoff.ts:670-683 | whatever the outside does a candidate's writes are for an approved decision, if and only if the decision's status is not an unknown one |
| `HandoffRun.LookUpNeverMisses` | packages/agent-runtime/src/durable-memory-artifact-handoff.ts:671-671 | the decision look-up never misses; processing throws only when the clock or the hashing does |
| `HandoffRun.ItemsFollowCandidates` | packages/agent-runtime/src/durable-memory-artifact-handoff.ts:667-684 | there is one item per candidate, in order |
| `HandoffRun.OnlyUnrejectedAreRead` | packages/agent-runtime/src/durable-memory-artifact-handoff.ts:670-683 | files of rejected candidates are never read |
| `HandoffRun.RunKeeps` | packages/agent-runtime/src/durable-memory-artifact-handoff.ts:666-690 | after any number of candidates, also when one throws, every item agrees with its object and row, and every object and row under the run's keys belongs to an item |
| `HandoffRun.NothingLeftBehind` | packages/agent-runtime/src/durable-memory-artifact-handoff.ts:666-706 | without a reported key, objects under the run's keys are exactly those of persisted items, and the rows that can be read are rows of persisted items, one a key |
| `HandoffRun.ReleaseSafeMeansAtomic` | packages/agent-runtime/src/durable-memory-artifact-handoff.ts:692-708 | release_safe implies that the sandbox is destroyed, that the run's objects are exactly those of persisted items with a clean scan, and that every readable row of the run is that of a persisted item, one a key |
| `HandoffSample.SampleCompletes` | packages/agent-runtime/src/durable-memory-artifact-handoff.ts:624-708 | a handoff that meets all assumptions, completes, is safe to release and keeps its item |
| `HandoffRun.RefusalsStoreNothing` | packages/agent-runtime/src/durable-memory-artifact-handoff.ts:627-664 | a handoff refused before processing stores and reads nothing |
| `HandoffRun.ReadDurableHandoff` | packages/agent-runtime/src/durable-memory-artifact-handoff.ts:710-740 | reading back finds an object only through an active record of the tenant under the tenant's prefix |
| `HandoffRun.ReadBack` | packages/agent-runtime/src/durable-memory-artifact-handoff.ts:710-740 | a persisted item is read back byte for byte by its tenant until it expires, and never by another tenant |
| `HandoffRecords.WriteDescribes` | packages/agent-runtime/src/durable-memory-artifact-handoff.ts:490-544 | every field of a record that is written comes from its decision, candidate, scan, lease and clock, thirty days being added exactly for temporary items, and the record can be traced to run, evidence and approver |
| `HandoffRecords.ReasonExact` | packages/agent-runtime/src/durable-memory-artifact-handoff.ts:420-489 | a candidate is refused for a reason if and only if that reason's cause is there and everything checked before was in order |
| `HandoffRecords.RaiseExact` | packages/agent-runtime/src/durable-memory-artifact-handoff.ts:490-512 | processing throws if and only if every gate was passed and the clock or the hashing throws |
| `HandoffRecords.StopsAtFirst` | packages/agent-runtime/src/durable-memory-artifact-handoff.ts:666-690 | a run stops exactly at the first candidate that throws, with an item for each before it |
| `HandoffRecords.DeclinesSayWhy` | packages/agent-runtime/src/durable-memory-artifact-handoff.ts:333-362 | accepted rejections carry a reason code |
| `HandoffRecords.CommitExact` | packages/agent-runtime/src/durable-memory-artifact-handoff.ts:546-621 | under every pattern of failures, when an item is persisted, rejected for either write, or reported |
| `HandoffRecords.ReadableFor` | packages/agent-runtime/src/durable-memory-artifact-handoff.ts:392-396 | a persisted item is found by its tenant for ever if user managed, and otherwise exactly until thirty days after it was written |
| `HandoffRecords.ReadExact` | packages/agent-runtime/src/durable-memory-artifact-handoff.ts:710-740 | a read finds something if and only if the ids are safe and the tenant has a live row of that id with its object under the tenant's prefix |
| `HandoffRecords.ResultMeans` | packages/agent-runtime/src/durable-memory-artifact-handoff.ts:404-418 | the error code, the clean-up status and release_safe name what happened, each if and only if |
| `Transport.PostToolResult` | apps/worker/src/fastclaw-service-transport.ts:181-253 | the retry loop posts and ends as the posting function says |
| `Transport.PostingExact` | apps/worker/src/fastclaw-service-transport.ts:205-252 | a result is delivered if and only if the first post is accepted, or it is a network error without an abort and the second is accepted; only the second may be a replay |
| `Transport.HandleLines` | apps/worker/src/fastclaw-service-transport.ts:343-409 | the inner loop handles the buffer's complete lines in order and keeps the rest |
| `Transport.RunStream` | apps/worker/src/fastclaw-service-transport.ts:330-414 | the read loop, its size limit, a broken stream and the final flush give what splitting the whole text gives |
| `Transport.ChunkIndependence` | apps/worker/src/fastclaw-service-transport.ts:330-414 | within the limit, callbacks, posts and outcome depend only on the concatenated text |
| `Transport.LanguageSound` | apps/worker/src/fastclaw-service-transport.ts:352-414 | whatever callbacks and posts do, the run answers only for lines that are one acceptance, heartbeats and tool calls with distinct ids, one final counting them, and nothing but blanks after; for those it answers unless a callback or post fails |
| `Transport.LanguageExact` | apps/worker/src/fastclaw-service-transport.ts:352-414 | with callbacks and the posts of parsed calls succeeding, the run answers if and only if the lines are in that language |
| `Transport.SampleAnswers` | apps/worker/src/fastclaw-service-transport.ts:352-414 | a context in which they all succeed and a stream with a tool call is answered |
| `Transport.AnswersInOrder` | apps/worker/src/fastclaw-service-transport.ts:371-397 | in a run that answers, the tool calls are executed once each in order and each result is posted before anything else is done |
| `Transport.EffectsInOrder` | apps/worker/src/fastclaw-service-transport.ts:371-397 | however the stream is cut and the run ends, every call but the last has its output posted before the next is executed, and only the last may be left without a delivered result |
| `Transport.ExecutedOnce` | apps/worker/src/fastclaw-service-transport.ts:371-376 | however the stream is cut and the run ends, no call id is executed twice |
| `TransportMeaning.ParseExact` | apps/worker/src/fastclaw-service-transport.ts:76-144 | a line is taken for an event if and only if its JSON says that event of this run, ids, input, answer and counts included |
| `TransportMeaning.RefusalNames` | apps/worker/src/fastclaw-service-transport.ts:76-140 | a line that is refused is refused for what its JSON says |
| `TransportMeaning.LineFailureNames` | apps/worker/src/fastclaw-service-transport.ts:343-409 | the failure of a line names its cause: its length, its JSON, its order, or who did not do their part |
| `TransportMeaning.EndingNames` | apps/worker/src/fastclaw-service-transport.ts:330-414 | when all lines were in order, the outcome is that of the way reading ended |
| `TransportMeaning.StreamEndNames` | apps/worker/src/fastclaw-service-transport.ts:333-342 | a run answers only for a stream that ended by itself within two mebibytes; one that is longer or breaks off fails as such |
| `TransportMeaning.AnswerIsSaid` | apps/worker/src/fastclaw-service-transport.ts:352-414 | the answer of a run and its token counts are what its last line that is not blank says |
| `TransportMeaning.ExecutedIsSaid` | apps/worker/src/fastclaw-service-transport.ts:371-384 | every executed tool call is said by a line of the stream, however the run ends |
| `TransportMeaning.ReplyIsForOne` | apps/worker/src/fastclaw-service-transport.ts:205-252 | no reply confirms the results of two calls or runs, and a first attempt is never confirmed by a replay |
| `TransportMeaning.ReplyExact` | apps/worker/src/fastclaw-service-transport.ts:205-252 | a reply confirms a result if and only if it says so for this call of this run, replayed only on a second attempt |
| `RunnerBudget.CallbackState.OnProgress` | packages/agent-runtime/src/fastclaw-agent-runner.ts:357-376 | a progress callback changes the shared variables as specified, and fails exactly when a failure is set |
| `RunnerBudget.CallbackState.OnToolCall` | packages/agent-runtime/src/fastclaw-agent-runner.ts:377-418 | a tool call reaches the executor exactly when it is admitted |
| `RunnerBudget.CallbackState.OnDecision` | packages/agent-runtime/src/fastclaw-agent-runner.ts:419-450 | a decision frees the slot and records completion or the failure |
| `RunnerBudget.BudgetsHold` | packages/agent-runtime/src/fastclaw-agent-runner.ts:377-450 | in every run the counter is the number of executor calls in flight, within max_parallel_tools, and at most max_steps executor calls with distinct ids are made |
| `RunnerBudget.FailureIsSticky` | packages/agent-runtime/src/fastclaw-agent-runner.ts:357-386 | after a failure no executor call is made and the failure stays |
| `RunnerBudget.FailureNeverCompletes` | packages/agent-runtime/src/fastclaw-agent-runner.ts:454-456 | a run, from its start, in which a callback fails while the transport runs never emits completion |
| `RunnerBudget.StreamIsOrdered` | packages/agent-runtime/src/fastclaw-agent-runner.ts:238-249 | events are numbered 0, 1, 2, …, the terminal event comes last and once, and there are at most 6·max_steps + 9 |
| `RunnerOutcomes.AdmittedExactly` | packages/agent-runtime/src/fastclaw-agent-runner.ts:377-418 | in every run a tool call reaches the executor if and only if callbacks are accepted, nothing failed, the name is allowed, the id is new, and both budgets leave room |
| `RunnerOutcomes.StepExact` | packages/agent-runtime/src/fastclaw-agent-runner.ts:300-525 | which steps a run can make in which state, and what each changes |
| `RunnerOutcomes.FailedIgnores` | packages/agent-runtime/src/fastclaw-agent-runner.ts:357-386 | after a failure a callback changes nothing |
| `RunnerOutcomes.FailureNames` | packages/agent-runtime/src/fastclaw-agent-runner.ts:357-450 | the failure a refused callback sets names its cause, if and only if |
| `RunnerOutcomes.EndHasCause` | packages/agent-runtime/src/fastclaw-agent-runner.ts:448-525 | every run that ends was ended by one of its steps, with the event that names it: completion only by an approved post-check |
| `RunnerOutcomes.PhasesAreEmitted` | packages/agent-runtime/src/fastclaw-agent-runner.ts:517-525 | a finished run emitted request, start, the recorded phases in order and the end; if it completed, within its token and step budgets |
| `RunnerOutcomes.RunCompletes` | packages/agent-runtime/src/fastclaw-agent-runner.ts:238-525 | with any valid budget there is a run with a tool call that completes |
| `RunGuard.GuardObject.Handle` | apps/sandbox-bridge/src/run-guard.ts:167-219 | each request replaces the stored state and answers as specified, other methods and unknown paths included |
| `RunGuard.MeteredIsCount` | apps/sandbox-bridge/src/run-guard.ts:84-160 | over any requests the allowed metered claims are exactly call_count and within max_calls |
| `RunGuard.MintedBudgetBounds` | apps/worker/src/fastclaw-agent-runner.ts:168-173 | a token minted for a valid step budget allows at most four metered calls a step |
| `RunGuard.MintedExact` | apps/worker/src/fastclaw-agent-runner.ts:168-173 | the minted budget is four calls a step, at least 4 and at most 64 |
| `RunGuard.TerminalIsFinal` | apps/sandbox-bridge/src/run-guard.ts:111-132 | after a finished destroy the state is frozen under any requests, aborts included, and only status and destroy are allowed |
| `RunGuard.StepExclusive` | apps/sandbox-bridge/src/bridge.ts:301-322 | every step of concurrent bridge callers keeps at most one destroy window, and it holds the guard |
| `RunGuard.WindowsFromNothing` | apps/sandbox-bridge/src/bridge.ts:301-322 | destroy windows never overlap in any run, lost replies included |
| `RunGuard.WindowExcludesWork` | apps/sandbox-bridge/src/run-guard.ts:133-143 | while a window is open no metered call is admitted and no receipt recorded |
| `RunGuardAnswers.ClaimExact` | apps/sandbox-bridge/src/run-guard.ts:84-160 | when a claim is allowed, which code refuses it and what it changes, exactly, for own and reissued tokens |
| `RunGuardAnswers.ReceiptExact` | apps/sandbox-bridge/src/run-guard.ts:195-216 | a receipt is recorded if and only if it is well formed and comes with the run's token while the guard is idle, and is shown from then on |
| `RunGuardAnswers.DestroyRepliesExact` | apps/sandbox-bridge/src/run-guard.ts:186-216 | finishing ends the run, aborting reopens it unless it is over, other requests change nothing |
| `RunGuardAnswers.AllowedWhileBudgetLasts` | apps/sandbox-bridge/src/run-guard.ts:143-157 | after any requests an idle guard allows work if and only if fewer metered calls than the budget were made |
| `RunGuardAnswers.WindowCloses` | apps/sandbox-bridge/src/bridge.ts:301-322 | an admitted destroy that goes through ends the run, one that fails leaves the guard as it was before |
| `RunGuardAnswers.LostRepliesCount` | apps/sandbox-bridge/src/bridge.ts:301-322 | a lost reply has the effect of a delivered one, an unsent request none, and the caller then aborts or gives up |
| `RunGuardAnswers.OthersMayCome` | apps/sandbox-bridge/src/bridge.ts:301-322 | work requests and new destroying callers are possible at any time |
| `ClientLock.LockTable.Enter` | apps/worker/src/fastclaw-agent-runner.ts:39-48 | a call reads the client's entry and stores its own in one step |
| `ClientLock.LockTable.Leave` | apps/worker/src/fastclaw-agent-runner.ts:52-55 | a settled call releases its promise, thrown or not, and deletes the entry only if it is its own |
| `ClientLock.MutualExclusion` | apps/worker/src/fastclaw-agent-runner.ts:33-57 | in every schedule at most one operation of a client runs, operations begin in call order, and a client has an entry exactly while a call of it is unfinished |
| `ClientLock.FirstWaiterMayStart` | apps/worker/src/fastclaw-agent-runner.ts:45-57 | the first unfinished call of a client runs or can begin, also after throws |
| `ClientLock.AllCanFinish` | apps/worker/src/fastclaw-agent-runner.ts:33-57 | from every reachable state all calls can still finish: the lock never deadlocks |
| `ExecStream.Base64RoundTrip` | apps/sandbox-bridge/src/bridge.ts:122-129 | atob undoes btoa on every byte string, and the encoding has no newline |
| `ExecStream.IntegerRoundTrip` | apps/sandbox-bridge/src/bridge.ts:139-139 | a printed integer is an integer literal with the same value |
| `ExecStream.Base64` | apps/sandbox-bridge/src/bridge.ts:122-129 | the base64 of a text is that of its UTF-8 bytes |
| `ExecStream.ExecSse` | apps/sandbox-bridge/src/bridge.ts:131-146 | the printer gives the frames of the non-empty outputs and of the exit |
| `ExecStream.ParseExecResponse` | apps/worker/src/fastclaw-row10-acceptance.ts:447-464 | the parser loop gives what folding the frames gives |
| `ExecStream.StreamSplits` | apps/worker/src/fastclaw-row10-acceptance.ts:450-450 | splitting at blank lines gives back the printed frames |
| `ExecStream.ExecRoundTrip` | apps/worker/src/fastclaw-row10-acceptance.ts:447-464 | parsing a printed result gives its exit code and the UTF-8 bytes of stdout, or reports the exit missing exactly when its code is no safe integer |
| `ExecStream.AsciiRoundTrip` | apps/worker/src/fastclaw-row10-acceptance.ts:447-464 | for ASCII output the same string comes back |
| `ExecStream.BothOutputsCarried` | apps/sandbox-bridge/src/bridge.ts:131-146 | whoever reads stdout or stderr by name from the stream gets exactly its UTF-8 bytes |
| `SweepLine.Sort` | scripts/run-fastclaw-live-release-evidence.ts:844-844 | the events are sorted in place, starts before ends at the same time, and are the same events |
| `SweepLine.MaxConcurrent` | scripts/run-fastclaw-live-release-evidence.ts:838-852 | the result is 0 for a time that does not parse, and otherwise the greatest of 0 and all starts-up-to minus ends-before counts |
| `SweepLine.PeakIsMaxOverlap` | scripts/run-fastclaw-live-release-evidence.ts:838-852 | with starts not after ends that is exactly the greatest number of closed intervals sharing an instant, and 0 for no runs |
| `SweepLine.TouchingCountTogether` | scripts/run-fastclaw-live-release-evidence.ts:844-844 | an end and a start at the same instant count together |
| `Lifecycle.StepKeeps` | apps/worker/src/research-agent-lifecycle.ts:185-401 | every statement and remote call of any number of executions keeps row, events and ownership history consistent and only moves forward |
| `Lifecycle.RunKeeps` | apps/worker/src/research-agent-lifecycle.ts:185-401 | over every run stored events never change, versions and periods only grow, and a deleted row stays as it is |
| `Lifecycle.OwnershipHistory` | apps/worker/src/research-agent-lifecycle.ts:531-661 | each ownership period has at most one finalization, and the version is the number of claims and finalizations |
| `Lifecycle.VersionGrows` | apps/worker/src/research-agent-lifecycle.ts:531-661 | a claim or finalization strictly raises operation_version, and no other step changes the row |
| `Lifecycle.FencedOut` | apps/worker/src/research-agent-lifecycle.ts:598-661 | while the lease is another request's and unexpired, a request changes nothing of the row in its next step |
| `Lifecycle.FencedForGood` | apps/worker/src/research-agent-lifecycle.ts:598-661 | an execution whose lease another request has claimed since stays fenced in every continuation in which its own request does not claim again |
| `Lifecycle.FencedWritesNothing` | apps/worker/src/research-agent-lifecycle.ts:598-717 | in every such continuation, however the lease stands, its statements change neither the row nor the events nor the ownership history |
| `Lifecycle.RestoresExactly` | apps/worker/src/research-agent-lifecycle.ts:526-641 | a failure that is not retryable restores the status its claim replaced if and only if that was still the status read before the claim, which it was when nothing was claimed or finalized in between |
| `Lifecycle.StatusOverwritten` | apps/worker/src/research-agent-lifecycle.ts:526-641 | a run in which a completed activation of another request is written back as disabled |
| `Lifecycle.FinalizesOwnPeriod` | apps/worker/src/research-agent-lifecycle.ts:598-661 | a finalization that takes effect is the first in the current period and that period is its request's own |
| `Lifecycle.DeletedIsFinal` | apps/worker/src/research-agent-lifecycle.ts:529-549 | a deleted profile stays unchanged in every continuation |
| `Lifecycle.ReplayAnswers` | apps/worker/src/research-agent-lifecycle.ts:196-212 | whatever happens in between, a repeated request answers from the stored event and touches nothing |
| `Lifecycle.MismatchAnswersNothing` | apps/worker/src/research-agent-lifecycle.ts:197-210 | with another intent a repeated request is not given the stored event, and touches nothing |
| `Lifecycle.AnswersAreStored` | apps/worker/src/research-agent-lifecycle.ts:679-717 | every answer is the one stored event of its request |
| `Lifecycle.RemoteIdsKept` | apps/worker/src/research-agent-lifecycle.ts:348-400 | ids obtained before a remote failure, or by a completed activation or disablement, are on the profile afterwards |
| `Lifecycle.IdsLostExactly` | apps/worker/src/research-agent-lifecycle.ts:331-356 | in the request's own ownership period a finalized failure loses obtained user and agent ids if and only if the failure is not a remote one |
| `Lifecycle.ReclaimedKeepsRow` | apps/worker/src/research-agent-lifecycle.ts:630-661 | when the same request claimed again since, such a failure leaves the ids that are on the row |
| `Lifecycle.IdsLost` | apps/worker/src/research-agent-lifecycle.ts:317-363 | a run that loses both |
| `LifecycleCalls.CallsFollowPlan` | apps/worker/src/research-agent-lifecycle.ts:317-402 | in every run an execution's remote calls are those of its plan, in order, after an authority that allows the intent; a success is finalized only when all of them worked |
| `LifecycleCalls.CallsSuitIntent` | apps/worker/src/research-agent-lifecycle.ts:368-402 | a user is removed only for a deletion of a closed account, disabled only for a disablement, activated and given an agent only for an activation |
| `LifecycleCalls.SuccessIsDone` | apps/worker/src/research-agent-lifecycle.ts:598-628 | a finalized success did at the remote what the row then says |
| `LifecycleCalls.DeletedWasRemoved` | apps/worker/src/research-agent-lifecycle.ts:389-400 | whenever the row is deleted, some execution read a closed account and removed the remote user |
| `LifecycleCalls.ClaimExact` | apps/worker/src/research-agent-lifecycle.ts:529-549 | a claim takes the row if and only if it is not deleted and its lease is free or expired, and then what the row says |
| `LifecycleCalls.AuthorityExact` | apps/worker/src/research-agent-lifecycle.ts:214-246 | a request goes on if and only if the authority allows its intent; a denial leaves an event unless account or workspace is missing |
| `LifecycleCalls.FailedStatementsDoNothing` | apps/worker/src/research-agent-lifecycle.ts:404-717 | a statement that fails before its effect changes neither row nor events nor history |
| `LifecycleCalls.EventIsWritten` | apps/worker/src/research-agent-lifecycle.ts:686-717 | the first event written for a request is stored, and it is the answer |
| `LifecycleCalls.RowIsEnsured` | apps/worker/src/research-agent-lifecycle.ts:519-525 | making sure of the row creates a disabled one or keeps the one there is |
| `LifecycleCalls.EventsAreTrue` | apps/worker/src/research-agent-lifecycle.ts:248-364 | every stored event is true: succeeded if and only if the intent's status was reached, denied only for a refused authority or a deleted profile |
| `LifecycleCalls.EventCopiesRow` | apps/worker/src/research-agent-lifecycle.ts:248-300 | an event has the status and the ids of the row at the moment it is made |
| `LifecycleCalls.BusyMeans` | apps/worker/src/research-agent-lifecycle.ts:556-567 | a request that cannot claim is in progress exactly while its own request holds the lease, and otherwise in conflict |

## Left out

- Update in place of `runProcess`, `create`, `kill` and `destroy`: their local variables are fields of a record per call, because many calls interleave; the model keeps the order of their awaits, not how they are compiled into one function.
- Update in place of the lifecycle repository and of the generator variables of the runner outside its callbacks, for the same reason.
- `writeFile` of the backend and the authorization before `readFile`: one authorize request and one provider call each.
- Rejection of malformed egress access, which fails an execution before it reserves anything; an execution whose reservation is not sent ends the same way in the model.
- Timers and durations: a call may time out at any moment, a lease may have expired at any moment.
- HTTP status codes, error message texts, log lines and headers beyond the outcome class of a step.
- The transport's request building, its checks before the stream is opened, and the error codes of those checks.
- JSON parsing beyond the printed exit frame, UTF-8 decoding of the transport's chunks, and regular expressions, which are spelled out as predicates on code units.
- Audit-only columns of the lifecycle row (last request, last error, timestamps) and the hashing of remote ids in events; the denied path writes only such columns of an existing row.
- Token signing and verification, and the derivation of sandbox ids and lifecycle identities.
- The bridge's routing, file and status handlers, and body limits, whose guard requests are covered as requests of anybody.
- A consumer that abandons the runner's event stream early.
- A store read that throws while reading a handoff back: the error passes to the caller.
- Whether output may follow the terminal event of an execution: that depends on provider callbacks.
- Gateway SQL resolvers, account capability tables, generated route trees, user interface bundles, release orchestration, migration workers, scanner clients and product control: plumbing, constants, or weaker copies of the logic proved here.
