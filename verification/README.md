# Argus, the incident control plane: a verified model

Argus groups alerts into incidents along a service graph, diagnoses them, proposes remediations, has people approve
them, dispatches approved work through a PostgreSQL outbox and JetStream to workers, and keeps a hash-chained audit
ledger. This project models those parts in Dafny and proves what they promise, over every input and every run.

Check the whole project with `dafny verify dfyconfig.toml`.

## What is modelled

**The execution protocol.** `Records` has one function per database transaction on a remediation and everything that
refers to it: approval request, outbox rows, audit entries. `Protocol` is the state machine around it. API replicas,
approvers, dispatchers, the reconciler and workers step in any order. A dispatcher publishes inside a transaction that
may still be lost, a worker may stop between any two steps, a message may be delivered any number of times, a status
read may be stale, and a handler's effect may land long after its worker gave up. `RecordInvariants` and
`ProtocolInvariants` hold the invariant and its preservation by every step; `ProtocolTheorems`, `StatusCauses`,
`DispatcherLocks`, `OutboxDelivery`, `RedispatchLimit` and `DuplicateWindow` say what follows for every run. `ControlPlane.Plane` is the same code in the form it is written in: a
class whose methods update the tables row by row, in loops where the source loops. Its ghost history ties every reachable
object to a run of the protocol, so the theorems about runs are theorems about it (`PlaneSafety`). `ControlState` is the store the typed
handlers write to, `Policy` and `Catalog` decide what needs approval.

**Topology and ingestion.** `Topology.Graph` is the graph with its breadth-first path search and greedy grouping loop.
`Walks`, `LeastPaths` and `Grouping` state without loops what they compute. `Incidents` specifies a whole Alertmanager
delivery; `IncidentStore.Store` is the service and its tables with the loops and updates of the source, each method
proved equal to that specification. `Placements` and `ResolvedAlerts` say on the tables alone
where alerts go and what a resolution does. `Clusters`, `IncidentPaths`, `CollidingNames`, `RelatedIncidents`,
`AlertConservation`, `ClearedStamps` and `ClosedIncidents` prove properties of deliveries and of runs of deliveries, new
edges, manual and closed incidents.

**The audit ledger.** `CanonicalJson` relates documents as written, what they mean, and the canonical form that is hashed.
`AuditChain` has append, verification and the tamper-evidence theorem. `LedgerStore` has the tables and the migration
that chains rows written before there was a chain.

**Root-cause scoring.** `RootCause` validates rules and scores one hypothesis; `Diagnosis` picks the winner and applies
topology.

## How to read it

- A transaction is one atomic step: a row lock or a conditional update is a guard. A step whose guard is false, and a
  transaction that fails or is rolled back, changes nothing.
- Transactions carry the time they started, which may lie behind the clock. Nothing assumes that two of them start in the
  order they commit.
- JetStream forgets a message id after the duplicate window. The window is part of the state machine, not an assumption:
  a second copy of a message is possible only after it, and `SecondCopyAfterWindow` shows that it then happens.
- The audit hash is a parameter and never assumed injective, since no function into 64 hexadecimal digits is. Where
  payloads must be told apart, the lemma says at which row of the two ledgers, or at which append of the run, the two
  payloads at hand there have one hash.
- Deduplication keys are the colon-joined strings of the source. They confuse two services exactly when one name is the
  other followed by a colon. Alerts always name a service, so the empty name has only the keys of incidents opened by
  hand, and collides only with names that start like one. The dependency-path invariant is proved for every set of
  names without a colliding pair, and fails for every set with one.
- The audit ledger hashes number literals as written, while a PostgreSQL `jsonb` column prints a number in its own way.
  A committed entry keeps verifying exactly when its numbers are printed as they were given (`1e-7` is not), or when the two payloads of that very append
  have one hash.
- `states.go` counts failed as terminal and still lists failed -> approved; no transaction makes that move.
- Unicode case folding is a parameter (`orbit` maps a character to its folding class), as are the numbers the database
  prints. Weights and confidences are reals, so floating-point rounding other than the source's own `round4` is absent.
- Policy reasons, statuses and action names are enumerations; texts of messages and summaries are not modelled.

## Model

| member | source | states |
|---|---|---|
| Policy.PolicyGate | internal/policy/engine.go:64-117 | The engine allows exactly the requests that are permitted on their own merits, and lets run without approval exactly permitted diagnostics nobody asked to treat more strictly |
| Policy.VerdictSaysWhy | internal/policy/engine.go:64-117 | The reason a verdict gives is true of the request, the two permitting reasons are given exactly to requests let through with and without approval, and only low risk gets a second attempt |
| Catalog.EffectiveRisk | internal/actions/catalog.go:67-79 | The effective risk is one of the two inputs and never ranks below the catalog's class or a recognised request |
| Catalog.AcceptedExactly | internal/actions/catalog.go:86-180 | Per action, exactly the targets of one shape (local/ or demo/ and a label, an allow-listed flag, demo:x:* with one wildcard, a pressure key) with exactly one parameter naming a number or boolean in range are accepted |
| ControlState.ReplayReturnsFirst | internal/workers/control_state.go:49-65 | A repeated idempotency key changes nothing and returns the first result, marked reused |
| ControlState.ReceiptPersists | internal/workers/control_state.go:85-93 | A receipt, once written, is forever the result of its key's first call |
| ControlState.TargetIsMergeOfFirsts | internal/workers/control_state.go:31-98 | After any history each target holds the merge, in order, of the first call of every key and of nothing else |
| ControlState.ReceiptsChain | internal/workers/control_state.go:70-93 | The before-state of a receipt is the after-state of the previous one on the same target |
| ControlState.PreviewPredictsExecute | internal/workers/control_state.go:23-98 | A preview taken at any point of a history is what a later execution under a fresh key returns and leaves, as long as no other fresh key reached the target in between; no other target moves |
| ControlState.HandlerWritesWithinBounds | internal/workers/typed_handlers.go:48-119 | What a typed handler writes for a valid request respects the catalog's bounds for that kind of target |
| ControlState.HandlerWritesAsAsked | internal/workers/typed_handlers.go:48-119 | What a typed handler writes is what the request asks for: target and kind, the requested flag or number, namespace and pod, and the key as token |
| ControlState.StoredStateStaysInBounds | internal/workers/typed_handlers.go:48-132 | After any history of typed-handler executions every stored target respects the catalog's bounds |
| ControlState.ExecutionStoresWhatWasAsked | internal/workers/typed_handlers.go:48-132 | After the first execution of a key, in any history, the target and the receipt hold exactly what the request asked for |
| ControlState.Store.MergeState | internal/workers/control_state.go:133-142 | Copying both maps key by key, in any order, gives the desired values over the current ones |
| ControlState.Store.Preview | internal/workers/control_state.go:23-29 | A preview computes the merged state and writes nothing |
| ControlState.Store.ApplyOnce | internal/workers/control_state.go:31-98 | The update in place is one application of the specification: receipt reused or target and receipt written together |
| DispatchIds.RenderInjective | internal/remediation/dispatch.go:336 | Two dispatch ids print the same only if they are the same, whatever characters the idempotency keys hold |
| RecordInvariants.TransactKeeps | internal/approvals/store.go:119-439 | Every transaction on a remediation keeps approval, outbox, budget and audit consistent, and makes one legal status move |
| RecordInvariants.DecisionNeeds | internal/approvals/service.go:124-142 | The checks on a decision, on the texts themselves: a visible name other than the system's, a visible reason, and a name that differs from the requester's in length or in a letter up to case and surrounding space |
| RecordInvariants.DecidedExactlyWhenEntitled | internal/approvals/store.go:119-215 | A decision is taken if and only if it is in time, about work awaiting it, by somebody entitled; it records who, when and why; too late it expires the request, and otherwise nothing changes |
| RecordInvariants.ReserveKeeps | internal/remediation/service.go:294-315 | Reservation, first outbox row and audit entry appear together, and approved work always gets them |
| RecordInvariants.SendAgainKeeps | internal/remediation/dispatch.go:320-351 | A new job for queued or running work gets one more row and, if the reconciler sent it, uses exactly one unit of budget |
| RecordInvariants.NextIdIsFresh | internal/remediation/dispatch.go:321-336 | Numbering a job by the row count never meets an id already used |
| ProtocolInvariants.NextKeeps | internal/workers/runner.go:246-408 | Every step of every actor keeps the invariant of the whole system |
| ProtocolInvariants.RunHolds | internal/remediation/dispatch.go:193-269 | The invariant holds after any sequence of steps |
| ProtocolTheorems.StatusMovesAreLegal | internal/remediation/states.go:19-66 | In every run every status write is a move the table allows and none leaves a terminal status |
| ProtocolTheorems.NothingFinalIsUndone | internal/incidents/store.go:899-991 | Between any two moments of a run terminal statuses, decided requests, outbox rows and audit entries persist |
| ProtocolTheorems.HandlersRunOnlyApproved | internal/workers/runner.go:298-314 | In every run a handler runs for anything but diagnostics only after an approval in time, with a reason, by an identified person whose name differs from the proposer's in more than case and space |
| ProtocolTheorems.RunsExactlyWithAHandler | internal/workers/runner.go:273-295 | In every run, work under way is refused by a worker exactly for want of a handler, or of a key: what policy validated is still valid when it runs |
| ProtocolTheorems.DefaultWorkersRunOnlyApproved | internal/workers/runner.go:273-314 | With the handlers a worker registers, nothing at all runs without such an approval |
| ProtocolTheorems.CancelledNeverRuns | internal/remediation/service.go:214-253 | A remediation cancelled at any moment of a run has no handler invocation, before or after |
| ProtocolTheorems.ApprovalAndRemediationAgree | internal/approvals/store.go:119-276 | In every reachable state request and remediation agree: pending with awaiting, denied with rejected, expired with timed out, cancelled with cancelled; without a request approval is never left |
| ProtocolTheorems.LedgerTellsStatus | internal/incidents/store.go:33-52 | Replaying a remediation's audit entries gives its stored status, up to queued against running |
| ProtocolTheorems.OutboxNeverStrandsWork | internal/remediation/service.go:287-315 | Queued or running work always has a job and none skipped; a skipped job belongs to work that is over for good |
| ProtocolTheorems.MessageIdsAreDistinct | internal/remediation/dispatch.go:320-339 | No two outbox rows, of one remediation or of two, are ever published under one message id |
| ProtocolTheorems.SecondCopyNeedsExpiredWindow | internal/queue/nats.go:29-31 | Two stored copies of a message lie at least the duplicate window apart, however often a dispatcher died after publishing |
| ProtocolTheorems.RedispatchBudget | internal/remediation/dispatch.go:392-461 | Redispatches since the last execute or replay never exceed the maximum, and k replays allow at most (k+1)(max+1) jobs |
| ProtocolTheorems.ReconcileSpendsBudget | internal/remediation/dispatch.go:435-461 | Each eligible pass times the work out or spends one unit of budget on a fresh pending job; without a live worker nothing changes |
| RedispatchLimit.PassesAreCounted | internal/remediation/dispatch.go:392-461 | Over any stretch of a run without a replay, the eligible passes are covered by the budget spent and by the pass that gave the work up |
| RedispatchLimit.StuckWorkIsGivenUp | internal/remediation/dispatch.go:371-463 | Between two replays there are at most max + 1 eligible passes with a live worker, and once there have been that many the remediation is timed out, whatever the other actors did |
| RedispatchLimit.StuckExactlyFrom | internal/remediation/dispatch.go:392-433 | In every run the reconciler takes work for stuck exactly when it is queued or running, has nothing left to send, and a computed moment has passed, from which on it stays stuck |
| RedispatchLimit.ReplayRenewsBudget | internal/remediation/dispatch.go:306-351 | A replay newer than every job before it adds a job and resets the reconciler's count to zero |
| ProtocolTheorems.EffectsAreApproved | internal/workers/typed_handlers.go:48-119 | Every control-state call comes from one remediation, approved in time by somebody else, reserved to execute and never cancelled, and writes exactly what that remediation asks for |
| ProtocolTheorems.EffectsExactlyOfExecutedTypedWork | internal/workers/typed_handlers.go:48-132 | In every run a started handler has an effect if and only if it is not a dry run and its action is one of the four typed ones |
| StatusCauses.StatusChangeHasCause | internal/workers/runner.go:246-408 | Every status change of a run is made by the step it stands for: a decision in time, a cancellation, a reservation, a claim, the matching end of a handler that worker was running, a refusal, an expiry, or the reconciler giving up |
| StatusCauses.StatusHasCause | internal/remediation/service.go:214-338 | In every run a remediation has a status its policy verdict does not give only if such a step was taken for it |
| StatusCauses.SucceededMeansHandlerReturned | internal/workers/runner.go:365-377 | A remediation is succeeded only if some worker invoked for it finished with a result |
| ProtocolTheorems.SameKeySameCall | internal/workers/control_state.go:49-64 | Calls that share an idempotency key are the same call, so a reused receipt is the caller's own |
| ProtocolTheorems.EachRemediationChangesItsTargetOnce | internal/workers/control_state.go:31-98 | However often a remediation is redelivered or replayed, only its first call changes a target, within the catalog's bounds |
| OutboxDelivery.LiveWorkIsPendingOrStored | internal/remediation/dispatch.go:227-265 | Every job of work under way is still pending or has been stored by JetStream, even if dispatchers died between publishing and committing |
| DispatcherLocks.RowsAreHeldOnce | internal/remediation/dispatch.go:197-225 | In every run no outbox row is in two dispatchers' hands or twice in one's, and a row somebody holds is still pending |
| DispatcherLocks.OnlyDueRowsAreTaken | internal/remediation/dispatch.go:197-225 | A dispatcher takes only rows that are pending, due and held by nobody, with their remediation's status as of then |
| DispatcherLocks.SettledRowsStay | internal/remediation/dispatch.go:227-269 | A row that was published or skipped never changes again, in any run |
| DispatcherLocks.CommitSettlesItsRows | internal/remediation/dispatch.go:227-269 | A commit settles each row of its batch once, as it came out, with attempts counted and the next attempt set; every other row stays as it is |
| DispatcherLocks.BackoffDoubles | internal/remediation/dispatch.go:272-278 | The wait after a failed attempt doubles with every attempt up to 30 seconds |
| DuplicateWindow.OneCopyWithinWindow | internal/queue/nats.go:29-31 | Within the duplicate window the stream holds one copy of every message |
| DuplicateWindow.SecondCopyAfterWindow | internal/remediation/dispatch.go:239-262 | With any environment enabled, some run loses a commit after publishing, lets the window pass and stores the message again |
| DuplicateWindow.NothingIsStored | internal/policy/engine.go:64-117 | Without an enabled environment no run ever stores a message |
| DuplicateWindow.StoredTwiceExactlyWithAnEnvironment | internal/remediation/dispatch.go:239-262 | Some run stores a message twice, exactly one window apart, if and only if an environment is enabled |
| PlaneSafety.HandlersWereApproved | internal/workers/runner.go:298-314 | After any sequence of calls on the tables, every handler ever started was for diagnostics or for properly approved work, and for no work now cancelled |
| PlaneSafety.RowsStayConsistent | internal/incidents/store.go:899-991 | After any sequence of calls every remediation's rows are consistent and work under way has a job |
| ControlPlane.Plane.CreateRequest | internal/approvals/store.go:29-80 | Inserts a pending request by the proposer that expires after the timeout, unless there is one |
| ControlPlane.Plane.Decide | internal/approvals/store.go:119-215 | Decides if and only if the request is pending and in time, its work awaits it, and the actor is somebody entitled other than the requester; request, remediation and audit change together, and a refusal changes nothing |
| ControlPlane.Plane.ExpireOne | internal/approvals/store.go:383-404 | Expires a request and times out its work exactly if it is still pending, and says so; otherwise changes nothing |
| ControlPlane.Plane.ExpireDue | internal/approvals/store.go:348-381 | Expires every due request that is still pending with its work, touches nothing else, and lists exactly those |
| ControlPlane.Plane.ProposeAgain | internal/remediation/service.go:81-98 | Reusing a remediation leaves it as it is but makes sure its approval request is open |
| ControlPlane.Plane.ProposeNew | internal/remediation/service.go:124-182 | Stores what was proposed, as a dry run, blocked, awaiting approval or approved exactly as the request deserves, with an open request exactly when it awaits approval; fails exactly when the key is taken |
| ControlPlane.Plane.ProposeAll | internal/remediation/service.go:73-196 | After a successful loop nothing proposed awaits an approval nobody was asked for |
| ControlPlane.Plane.Cancel | internal/remediation/service.go:214-253 | Cancels if and only if the work is still in the status that was read, that status is one not yet started (or cancelled already), and work awaiting approval is cancelled by a named actor together with its request; otherwise changes nothing |
| ControlPlane.Plane.CancelAwaiting | internal/approvals/store.go:217-276 | Cancels a pending request and the work awaiting it together, exactly for a named actor; otherwise changes nothing |
| ControlPlane.Plane.Execute | internal/remediation/service.go:255-338 | Reserves if and only if the work was read as approved and still is: queued as of now in the mode asked for, with one pending job of its own id; work under way or done is noted as reused, and anything else changes nothing |
| ControlPlane.Plane.Replay | internal/remediation/dispatch.go:306-351 | Adds one pending job with an id of its own exactly for queued or running work; otherwise changes nothing |
| ControlPlane.Plane.ReconcileOne | internal/remediation/dispatch.go:435-461 | A stuck remediation stays as it is without a worker, is timed out once its budget is spent, and otherwise gets one pending job with an id of its own; it is reported in the matching list |
| ControlPlane.Plane.ReconcileFound | internal/remediation/dispatch.go:371-463 | A pass reconciles each remediation found, leaves all others alone, and lists each once: waiting without a live worker, otherwise given up on or sent again by the budget it has spent |
| ControlPlane.Plane.PublishNext | internal/remediation/dispatch.go:227-265 | A row is skipped exactly when its remediation was over, published otherwise, and a failure ends the batch |
| ControlPlane.Plane.PublishAll | internal/remediation/dispatch.go:227-266 | The loop handles a prefix of the batch in order, stops early only at a failed publish, and counts what JetStream accepted |
| ControlPlane.Plane.PublishBatch | internal/remediation/dispatch.go:193-269 | Locking, publishing and committing a batch marks exactly the rows handled and releases every lock |
| ControlPlane.Plane.ReadJob | internal/workers/runner.go:257-271 | A message goes on only for work that is queued or running, with the row as read |
| ControlPlane.Plane.FinishOn | internal/workers/runner.go:394-408 | Exactly if the work is still queued or running it ends succeeded, failed or timed out as the ending says, with the one audit entry that says so |
| ControlPlane.Plane.RefuseJob | internal/workers/runner.go:273-295 | Work without a handler, or that its handler refuses, fails without running, and the audit entry says which |
| ControlPlane.Plane.ClaimRow | internal/workers/runner.go:298-312 | The claim succeeds exactly if the work is still queued or running; otherwise the skip is noted, except for work that succeeded |
| ControlPlane.Plane.ConcludeJob | internal/workers/runner.go:314-387 | Running work ends succeeded on a result, failed on an error and timed out at the deadline, and stays running on a retry, each with its audit entry; a result that comes too late is noted as a conflict |
| ControlPlane.Plane.HandleMessage | internal/workers/runner.go:246-388 | A message runs its handler exactly once or not at all, exactly for runnable work under way; then a result means succeeded, an error failed, a deadline timed out and a retry still running; refused work ends failed and stale work is noted, each with its audit entry |
| Topology.GraphMatchesEdges | internal/topology/graph.go:38-55 | Every dependency list is sorted, free of duplicates and holds exactly what the usable edges name |
| Topology.Graph.constructor | internal/topology/graph.go:38-55 | The loops build that graph |
| Topology.SortedKeys | internal/topology/graph.go:212-219 | The keys of a map, each once, in order, however the map is walked |
| Topology.Graph.Expand | internal/topology/graph.go:74-84 | Offering the neighbours of one stop keeps the search frontier, or finds the least path |
| Topology.Graph.Path | internal/topology/graph.go:57-87 | Terminates on every graph, finds a path exactly when one exists, and then the alphabetically first of the shortest |
| LeastPaths.LeastPathIsLeast | internal/topology/graph.go:57-87 | Always stepping to the first neighbour that gets closer gives that same path |
| PathSearch.FoundIsLeast | internal/topology/graph.go:74-81 | The first path offered to an unvisited service is least among all walks to it |
| PathSearch.NotFound | internal/topology/graph.go:71-86 | When the queue runs empty, nothing unvisited can be reached |
| Topology.Graph.Reachable | internal/topology/graph.go:146-160 | Collects exactly what a service depends on, directly or not, and the service |
| Topology.Graph.RootCandidates | internal/topology/graph.go:143-163 | Lists in order exactly the services some unassigned service reaches |
| Topology.Graph.Covered | internal/topology/graph.go:165-178 | Finds exactly the unassigned services that reach a root and the sum of their shortest distances |
| Topology.Graph.ChooseRoot | internal/topology/graph.go:100-118 | The scan ends with the best candidate of all and its members |
| Topology.Graph.TakeMembers | internal/topology/graph.go:125-130 | Every member gets its least path to the root and leaves the unassigned services |
| Topology.Graph.Groups | internal/topology/graph.go:89-141 | The loop terminates and produces the rounds of the loop-free definition, sorted by root |
| Topology.BestNamed | internal/topology/graph.go:120-124 | The best root is never the empty name, so the loop's fallback is unreachable |
| Grouping.GroupingPartitions | internal/topology/graph.go:89-141 | The groups partition the distinct non-empty alerted services; roots are distinct and in order, every member has its least path to its root, an observed root is a member, an inferred one has at least two members |
| Grouping.GroupingIsDetermined | internal/topology/graph.go:89-141 | The result depends on the set of alerted services alone, not on order, repetition or map iteration |
| Grouping.RoundUnique | internal/topology/graph.go:99-137 | Each round has one possible outcome |
| Grouping.NothingDeeperCoversMore | internal/topology/graph.go:165-200 | Nothing a chosen root depends on covers a further unassigned service |
| Grouping.ChosenRootIsFirst | internal/topology/graph.go:181-200 | The chosen root covers most, then is nearest in total, then is alerted if any such is, and then has the smallest name |
| Grouping.InferredNeedsTwo | internal/topology/graph.go:180-200 | A root nobody alerted on is chosen only for at least two services |
| Grouping.BeatsTransitive | internal/topology/graph.go:180-200 | The comparison of roots is transitive, so the scan's running best is the best |
| IncidentPaths.KeysSeparateServices | internal/incidents/service.go:40-42 | Alerts on two services can share a deduplication key exactly when one name is the other followed by a colon |
| IncidentPaths.PlaceKeeps | internal/incidents/service.go:438-478 | Wherever a group is placed, its root depends on that incident's root and nothing attached before loses its path |
| IncidentPaths.AttachedAlertsReachTheRoot | internal/incidents/service.go:247-259 | In every run every attached alert and recorded notification depends on its incident's current root through every promotion, and every recorded path is a real path to the root recorded with it |
| CollidingNames.CollidingNamesLosePaths | internal/incidents/service.go:438-452 | For any two colliding names, the empty one included, some run of two steps naming nothing else attaches an alert to an incident its service has no path to |
| CollidingNames.PathsHoldExactlyForSeparableNames | internal/incidents/service.go:438-452 | For every set of service names, the path invariant holds in all runs over those names if and only if no two of them collide |
| RelatedIncidents.RelatedIsNearest | internal/incidents/service.go:618-647 | A group joins the nearest open incident its root sits on or depends on, otherwise moves the root of the nearest that depends on it, otherwise none |
| RelatedIncidents.ChosenUnique | internal/incidents/service.go:618-647 | There is only one such choice |
| Placements.PlacedExactly | internal/incidents/service.go:438-478 | A group goes to the live incident with the root alert's key seen last, else to the nearest open one, whose root moves exactly if it lies above, else to a new incident; key, start time and every other column stated |
| Placements.OpenAreTheLive | internal/incidents/store.go:290-303 | A delivery looks at exactly the incidents not closed that have a fresh alert or were seen within the window, by start time and then age |
| ResolvedAlerts.ResolvedStampsTheLast | internal/incidents/service.go:359-436 | A resolved notification goes to the open incident its alert fires on that was seen last; it is stamped now exactly if nothing fresh is left and it was not stamped; without such an incident nothing changes |
| ResolvedAlerts.LastResolutionStamps | internal/incidents/service.go:405-413 | An incident whose last fresh alert a delivery resolves, and which gets no firing alert in it, ends stamped; one the delivery does not mention keeps its stamp |
| ClosedIncidents.ClosedIncidentsStay | internal/incidents/service.go:44-88 | In every run a closed incident never changes again: no root moves, no alert is attached or resolved on it, no signal is kept there |
| Clusters.ClusteringSplits | internal/incidents/service.go:579-599 | The clusters of a delivery are sound groups of one environment, pairwise disjoint, and leave no service out |
| Clusters.ClusteringIsDetermined | internal/incidents/service.go:579-599 | Which clusters a delivery has depends on its set of alerts alone |
| Clusters.TakenIsAll | internal/incidents/service.go:562-577 | The clusters take every alert exactly once, repeated alerts as often as delivered |
| AlertConservation.DeliveryConserves | internal/incidents/service.go:152-283 | One signal per firing alert and per matched resolved notification; suppressed alerts are those off their root; observed plus inferred roots are the groups; affected services are the distinct (environment, service) pairs; resolved notifications are counted once and open no incident |
| AlertConservation.GroupRootIsCounted | internal/incidents/service.go:196-246 | A group counts as one with an inferred root exactly if nobody in it, or where it joined nobody the incident had heard of, alerted on the root |
| ClearedStamps.ClearedMeansNothingFresh | internal/incidents/store.go:303-378 | In every run an incident stamped as cleared has no firing alert seen within the staleness bound |
| ClearedStamps.RefiresAreStampsTakenOff | internal/incidents/store.go:315-327 | The re-fires a delivery reports are exactly the incidents whose stamp its firing alerts took off, and every incident one of them went to ends unstamped |
| ClearedStamps.DeliveryMarksFiring | internal/incidents/store.go:305-314 | Every firing alert delivered ends up marked firing, as of now, on the incident its signal went to, and that incident carries no stamp |
| IncidentStore.RelatedOpenIncident | internal/incidents/service.go:618-647 | The scan of open incidents finds the unique nearest choice |
| IncidentStore.AlertsForGroup | internal/incidents/service.go:562-577 | Collects the group's alerts of its environment in order |
| IncidentStore.RootAlertForGroup | internal/incidents/service.go:601-616 | Returns the first alert on the root, or the stand-in when there is none |
| IncidentStore.AppendOrReplaceIncident | internal/incidents/service.go:713-721 | Replaces the first incident with that id in place, or appends it where there is none |
| IncidentStore.TopologyGroupsByEnvironment | internal/incidents/service.go:579-599 | The loop over environments builds the clustering of the delivery |
| IncidentStore.Store.MarkAlertFiring | internal/incidents/store.go:305-327 | Marks the alert firing as of now under the service it was first attached with, takes the stamp off, and reports a re-fire exactly when the stamp was there |
| IncidentStore.Store.MarkAlertResolved | internal/incidents/store.go:350-368 | Marks the alert resolved and returns how many fresh alerts still fire |
| IncidentStore.Store.MarkAlertsCleared | internal/incidents/store.go:371-378 | Stamps the incident unless it is stamped already |
| IncidentStore.Store.PromoteIncidentRoot | internal/incidents/store.go:401-425 | Moves the root and key, and the start time only backwards |
| IncidentStore.Store.RootInferred | internal/incidents/store.go:605-651 | The loop over signals tells whether the incident has alerts but none on its root |
| IncidentStore.Store.ResolveAlert | internal/incidents/service.go:359-436 | Resolves the alert on the open incident it fires on, stamps that exactly if nothing fresh is left and it was not stamped, and counts the notification; without such an incident changes nothing and counts it unmatched |
| IncidentStore.Store.FindOrCreateTopologyIncident | internal/incidents/service.go:438-478 | Finds by key, joins the nearest, moves its root or opens a new incident, exactly in the cases the tables call for |
| IncidentStore.Store.AttachTopologyAlert | internal/incidents/service.go:247-265 | Records signal, least path and firing alert, and counts suppression and re-fire |
| IncidentStore.Store.IngestGroup | internal/incidents/service.go:186-281 | One turn of the loop over groups is one step of the specification |
| IncidentStore.Store.IngestAlertmanager | internal/incidents/service.go:132-283 | A delivery leaves tables and figures exactly as specified for the clustering of its alerts, which is one step of a run |
| CanonicalJson.CanonicalSaysTheSame | internal/audit/chain.go:89-100 | Decoding and re-encoding with sorted names keeps what a document says, with the last of repeated names counting |
| CanonicalJson.CanonicalFormDecidesMeaning | internal/audit/chain.go:89-100 | Two documents have one canonical form exactly when they say the same, so member order never matters |
| CanonicalJson.CanonicalTwice | internal/audit/chain.go:103-114 | Canonicalising stored canonical text changes nothing |
| CanonicalJson.KeptNumbersKeepValue | internal/audit/chain.go:93-99 | Rewriting number literals keeps a value exactly when every literal in it is kept |
| AuditChain.PayloadDecidesEntry | internal/audit/chain.go:102-138 | Payloads are equal exactly when position, previous hash and every field of the entry agree |
| AuditChain.PayloadSays | internal/audit/chain.go:102-138 | What is hashed says what the entry says, each document in its own place, with position, previous hash, version and time |
| AuditChain.WrittenRowSays | internal/audit/service.go:83-138 | A written row says what the caller said, each document in its own column with only its numbers reprinted, at the caller's time rounded down to a microsecond, one position after the head and linked to it |
| AuditChain.Verify | internal/audit/service.go:179-270 | The report is valid exactly when the rows chain up to the stored head; otherwise it names the first row that breaks the chain and how, or the head, with what was expected and found there |
| AuditChain.TamperEvidence | internal/audit/service.go:213-256 | Two ledgers that verify against one head are equal entry by entry, or at some position their two rows have different payloads with one hash |
| AuditChain.TamperingIsReported | internal/audit/service.go:213-256 | A ledger that differs from a verifying one in any entry does not verify against its head, for every hash that tells the payloads of the two ledgers apart |
| AuditChain.ReorderedMembersStillVerify | internal/audit/chain.go:102-114 | Rewriting documents without changing what they say raises no alarm |
| AuditChain.AppendVerifies | internal/audit/service.go:83-138 | After an append, microsecond truncation and storage, the ledger verifies if and only if it did before and the stored numbers are kept or this append's two payloads collide |
| AuditChain.ReachableLedgersVerify | internal/audit/service.go:61-138 | Every ledger reached by committed and rolled-back writes with kept numbers verifies, and earlier rows stay |
| AuditChain.LedgerVerifiesExactlyWhenHarmless | internal/audit/service.go:83-138 | After any writes the ledger verifies if and only if each committed one kept its numbers or collides at its own append |
| AuditChain.LedgerVerifiesExactlyWhenNumbersKept | internal/audit/service.go:83-138 | After any writes whose own two payloads never collide, the ledger verifies if and only if storage prints every committed number as given |
| AuditChain.RewrittenNumberBreaksLedger | internal/audit/chain.go:78-87 | A ledger with one number the database prints differently verifies if and only if that entry's own two payloads collide |
| AuditChain.EveryPrinterIsFaithful | internal/audit/chain.go:89-100 | Whatever way of printing numbers it has, there is a database that otherwise stores what documents say |
| AuditChain.ExponentBreaksLedger | internal/audit/chain.go:78-87 | The float Go encodes as 1e-7, spelled out by the database, breaks the ledger, exactly unless that entry's own two payloads collide |
| LedgerStore.BackfillVerifies | internal/audit/chain.go:237-299 | Chaining unchained rows gives a verifying ledger with the same entries in (created_at, id) order |
| LedgerStore.MigratedLedgerVerifies | internal/audit/chain.go:140-235 | A successful migration leaves a verifying ledger with the same entries, unless an existing chain was already broken |
| LedgerStore.MigratesExactlyWhenClear | internal/audit/chain.go:170-202 | A migration goes through if and only if the ledger is empty, wholly unchained without a head, or wholly chained with one; a refusal or a chained ledger changes nothing |
| LedgerStore.MigratingTwiceChangesNothing | internal/audit/chain.go:182-202 | Running the migration again changes no row, hash or head |
| LedgerStore.Ledgers.WriteTx | internal/audit/service.go:83-138 | Row and head advance together exactly when there is a head and all three documents can be encoded, each in its own place; otherwise nothing is written |
| LedgerStore.Ledgers.BackfillLegacyRows | internal/audit/chain.go:237-299 | The loop carrying position and previous hash builds the specified chain and head |
| LedgerStore.Ledgers.MigrateLedger | internal/audit/chain.go:140-235 | Initialises, backfills, refuses or leaves alone in exactly the specified cases |
| RootCause.ValidateProbes | internal/correlation/rules.go:192-211 | Accepts exactly probe lists with distinct valid probes (known comparator, weight in range, scoped query), a cause among them, and weights within the limit |
| RootCause.ValidateTemplates | internal/correlation/rules.go:212-237 | Accepts exactly templates with a registered action, a known risk, one placeholder in a target format and no redundant fallback |
| RootCause.OnePlaceholder | internal/correlation/rules.go:230-232 | A target format counts one placeholder exactly if there is exactly one place where it stands |
| RootCause.ValidateRules | internal/correlation/rules.go:169-219 | Accepts exactly valid rule tables: distinct ids, every alert name claimed once, valid probes and remediation templates |
| RootCause.ScoreRule | internal/rca/service.go:293-317 | Raw is 0.45 plus the weight in favour less half the weight against to four places, capped at 0.55, 0.80 or 0.95 by the backends whose cause probes agree, and confidence is raw within baseline and cap |
| RootCause.EachResultCounts | internal/rca/service.go:293-317 | Without results a match scores 0.45; each result in favour raises raw by its weight, each against lowers it by half, to within rounding, and a probe that saw nothing changes nothing |
| RootCause.Round4Nearest | internal/rca/service.go:615-624 | Rounding moves a value by at most half a unit in the fourth place |
| RootCause.ConfidenceNeedsIndependentSources | internal/rca/service.go:40-49 | Confidence lies in [0.35, 0.95], passes 0.80 only if cause probes on both backends agree, and 0.55 only if one does |
| RootCause.BetterEvidenceNeverHurts | internal/rca/service.go:293-317 | Upgrading probes from refuted to unobserved to corroborated never lowers confidence and never makes a hypothesis contradicted |
| RootCause.ContradictedScoresLow | internal/rca/service.go:312-315 | A contradicted hypothesis of a valid rule scores at most 0.575 |
| Diagnosis.PrimaryMatches | internal/rca/service.go:259-278 | One match per rule in order of first appearance: the first on the incident's own service, otherwise the first |
| Diagnosis.Pick | internal/rca/service.go:262-272 | Replacing a match only to move onto the incident's own service ends with that choice |
| Diagnosis.SortedHeadWins | internal/rca/service.go:340-354 | The head of the stable sort is the one score nothing beats and that beats everything before it |
| Diagnosis.WinnerIsBest | internal/rca/service.go:340-354 | A contradicted hypothesis wins only if all are; otherwise the most confident uncontradicted one does, then the one on more sources, then the first by name |
| Diagnosis.ScoreHypotheses | internal/rca/service.go:319-397 | Reports the one winner there is with its own hypothesis, score and cap, its remediations unless contradicted and then diagnostics of the service probed, or insufficient evidence exactly when nothing matched |
| Diagnosis.ConfidenceIsEarned | internal/rca/service.go:569-603 | After fallback and enrichment too: within [0.35, 0.95], above 0.80 only with both backends, above 0.55 only with a cause probe or the topology fallback |
| Diagnosis.TopologyNudges | internal/rca/service.go:569-590 | An alert seen on the root raises an uncontradicted match by 0.03 within its cap; otherwise topology leaves the report alone unless it falls back over it |
| Diagnosis.NothingMatchedStaysModest | internal/rca/service.go:539-567 | With no match the report is the baseline with diagnostics of the incident's own service, or 0.58 or 0.72 naming the root and with diagnostics of that |
| Diagnosis.ContradictedWinnerStaysLow | internal/rca/service.go:380-387 | A contradicted winner proposes diagnostics only and is reported at 0.575 at most, exactly unless its rule is named like the no-evidence verdict and topology falls back over it |
| Diagnosis.ToldContradictedStaysLow | internal/rca/service.go:380-387 | With rules named apart from the no-evidence verdict, a contradicted winner is reported at 0.575 at most whatever the topology |
| Diagnosis.ShippedRulesAreTold | internal/correlation/rules.go:73-166 | The rules that ship are named apart from it |
| Diagnosis.MisnamedRuleEscapes | internal/rca/service.go:539-543 | A valid rule with that name, contradicted and still winning, is reported above the bound |

## Left out

- HTTP routing, request limits, authentication, the command line, Slack and other notification delivery.
- The Helios executor and its reconciler, whose remote service is not visible; with it the release of a queue reservation.
- SQL text, connections, NATS client calls, acknowledgements and dead letters as such: a message may simply be delivered again or never.
- Retry delays of workers and the spacing of publish retries beyond the stored next attempt.
- The Python AI service and the advisory summary.
- The schema migration runner, and worker heartbeats, which enter as "a live worker supports the action".
- Incident lifecycle statuses between open and closed, approval escalation, severities, titles, summaries, timeline events and evidence texts.
- Label normalisation and the order in which a delivery's alerts are sorted: a delivery is any sequence of alerts with non-empty service names.
- The ten-minute attempt counts behind idempotency keys: a key is whatever the proposal carries, and a taken key fails the insert.
- The open-incident check before a reservation, which the source makes outside the reservation's transaction.
- Matching alerts to rules and rendering of candidate remediations: a match is given.
- Incident ids: the tables number incidents in creation order, which also breaks ties the source breaks by random id.
- Signals of notifications for services that do not exist yet: the service catalogue is not modelled.
- RootCause.ValidateProbes: a backend is one of the two the source knows and whether a query is well scoped is given, because unknown backend names and query texts are not modelled.
