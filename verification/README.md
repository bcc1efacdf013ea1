# Hamsterdan: durable-state protocols in Dafny

Hamsterdan watches pull requests, and everything it does must survive crashes, redelivered
webhooks, lost HTTP answers and foreign pushes. This project models the protocols that make that
safe and proves what they keep over every run.

- **Intake** (`Intake`, `History`, `Runtime`, `RuntimeRuns`, `Inbox`, `TwoStores`, `IntakeRuns`,
  `WorkerTurn`, `Application`, `IntakeExample`). Webhook rows live in an application database; an authorized row is offered to a
  second store, an append-only History per pull request, from inside the application transaction.
  A crash may fall between the two commits. The runtime keeps no queue: it parses History's records
  back into observations each time. SHA-256 and JSON are fields of a `Codec`. Nothing is assumed of
  SHA-256 in general: the one theorem that needs it asks that no two authorized rows of the run at
  hand collide in what was hashed for their identities, and `IntakeExample` shows a run that meets
  all its hypotheses. The workflow engine is reduced to what the code
  checks of it: a new identity appends a delivery and a begun firing under a larger occurrence, a
  known one appends nothing, completion appends the produced token and the terminal record.
- **Publication** (`Markers`, `Comments`, `CodeHost`, `Findings`, `Trailers`, `GitPublish`,
  `GitPublisher`). Retry loops against a provider that may apply a write and lose the answer. The
  provider is two comment lists, or a branch over an immutable commit graph; an adversary chooses
  what landed, what was answered and what everyone else does. The adversary is a plan,
  arbitrary in every theorem; what must succeed is proved of the plans in which nothing goes wrong. A write is visible to a listing once
  its answer or error was seen, and the bot account has one writer at a time.
- **Custody and scheduling** (`Custody`, `ServiceOrder`, `Activation`, `Overtaking`, `Runnable`). Per-pull-request order with
  deferred retries, and the wake index. The clock, arrivals, routes, application and settle outcomes
  of one activation are an input script, arbitrary in every theorem; the number of deliveries still
  to arrive is any finite number. A sequential run is any sequence of calls of `HostService`'s
  methods; each keeps its `Valid()`, which holds the order invariant over the log of all attempts.
- **Smaller pieces** (`AgentRoutes`, `Routing`, `Configuration`, `Archive`, `Crop`). The agent-route
  fence, installation routing and the configuration it relies on, workspace-archive admission and
  extraction, and the changed-pixel crop of the demo video.

Code that changes rows, lists or branches step by step is a class or a method with loops, proved
against functions on values; parsers and projections are functions. `dafny verify dfyconfig.toml`
checks everything.

## What reading the code alone does not show

- `CommentPublisher.finding` keeps markers unique, whatever the provider does, if and only if the
  finding names a line or no review comment holds its marker: without a path and line the review
  comments are never read. Both directions are in the contract of
  `Findings.CommentPublisher.Publish`, and `Findings.RelocatedFindingRepeats` is the run: an operation
  published with its line and then without it ends up held twice.
- One commit per operation holds without help from the lookup: every commit of the operation sits on
  the expected head, and a first-parent history cannot contain that head twice
  (`GitPublish.SingleCommit`). Were one operation published on different heads, it would hold exactly
  when the later head's history has no commit of the operation (`GitPublish.SecondCommitIff`).
- Deliveries of a pull request are first *attempted* in row order in every run
  (`ServiceOrder.FirstAttemptsInRowOrder`), but not always first *served* in that order. A row found
  at an inactive route counts as succeeded; when a later row of the same activation is served and the
  activation then fails, the skipped row is charged and waits to be served after it.
  `Overtaking.OvertakingRun` is such a run of two activations. For every run, service is in row order
  if and only if no row that an activation overtook in just that way is served by a later activation
  (`ServiceOrder.InServiceOrderIff`), a condition on the route answers, the settle results and the
  attempts left; a pair out of order always has its earlier row overtaken and then served
  (`ServiceOrder.OutOfOrderIsOvertaken`), so an overtaken row that is disposed of, exhausted or skipped
  again does no harm, and neither do other rows and pull requests.
- A commit that was created is found again if and only if operation and digest are single lines
  (`GitPublisher.CreatedIsFoundIff`), which nothing in `git_publish.py` checks. With a line break in
  the operation a lookup answers absent, with one in the digest alone it ends in the idempotency error
  (`GitPublisher.CreatedOtherwise`). The guarantees on what is returned do not depend on it.
- The fence's last comparison (`agenticus.py` line 278) can never fail, and the branch at
  `webhook_inbox.py` lines 434-441 can never be taken.
- In `immutable`, a second attempt follows only a lost answer: every answered status returns or raises
  on the first one, although the loop reads as if it retried.

## Model

| member | source | states |
|---|---|---|
| `IntakeRuns.ExactlyOnce` | src/hamsterdan2/host/webhook_inbox.py:605-627 | after every run of receive, reject, authorize, offer (with or without a crash between the commits), complete, open and other transitions' records in which no two authorized rows collide in what was hashed for their identities: each canonical observation is in History at most once over all pull requests, each delivered identity belongs to exactly one authorized row of that pull request, and every recorded row's identity is in its History |
| `IntakeExample.HypothesesAreMet` | src/hamsterdan2/host/webhook_inbox.py:549-627 | some codec and some run meet all hypotheses of `ExactlyOnce` and deliver something |
| `IntakeExample.FirstDeliveryIsRecorded` | src/hamsterdan2/host/application.py:64-155 | for every sound codec and open head, opening, receiving, authorizing and offering is a permitted run that records the delivery and puts it in History |
| `IntakeRuns.ReplayRecordsWithoutGrowth` | src/hamsterdan2/host/webhook_inbox.py:605-627 | recovery: offering a row again after a crash between the commits records it and leaves every History as it is |
| `IntakeExample.CrashedDeliveryIsRecovered` | src/hamsterdan2/host/webhook_inbox.py:605-627 | a run with the crash between the two commits: the row stays pending while History has it, and offering it once more records it without growth |
| `IntakeRuns.RowsOnlyEvolve` | src/hamsterdan2/host/webhook_inbox.py:306-377 | between any two points of a run raw evidence never changes, authority is never revoked, an outcome and a collision digest are written once |
| `IntakeRuns.EveryRowIsSound` | src/hamsterdan2/host/webhook_inbox.py:183-239 | every row any run commits reconstructs without corruption and meets the table constraints; a collided row without authority is concluded; a duplicate points to an authorized owner of the same canonical observation; one owner per key |
| `IntakeRuns.AuthorizedRoundTrip` | src/hamsterdan2/host/webhook_inbox.py:134-180 | reading back an authorized row gives exactly the normalized, route and prepared values that were written |
| `IntakeRuns.GrantGivesAuthorizedValues` | src/hamsterdan2/host/webhook_inbox.py:463-511 | a granted authorization returns and stores exactly the authorized values |
| `IntakeRuns.AuthorizedValuesSurvive` | src/hamsterdan2/host/webhook_inbox.py:134-239 | at every later point of the run, under any policy revision, the row still reconstructs to the values it was authorized with |
| `TwoStores.RunKeeps` | src/hamsterdan2/host/webhook_inbox.py:549-627 | the joint invariant of database and Histories holds after every permitted run from empty stores |
| `TwoStores.OfferIsClaimed` | src/hamsterdan2/host/webhook_inbox.py:500-511 | what is offered to History is bridgeable, well formed, and claimed by its own row and pull request |
| `TwoStores.OfferStepKeeps` | src/hamsterdan2/host/webhook_inbox.py:605-627 | offering keeps the joint invariant whether History refuses, the process dies after History's commit, or both commits succeed |
| `TwoStores.OtherStepKeeps` | src/hamsterdan2/readiness/runtime.py:194-211 | a record of another transition keeps the joint invariant |
| `Inbox.RecordKeepsInv` | src/hamsterdan2/host/webhook_inbox.py:283-351 | first receipt, exact redelivery and collision keep the inbox invariant and only evolve rows |
| `Inbox.RecordingMeans` | src/hamsterdan2/host/webhook_inbox.py:283-351 | on the stored columns: a stored delivery is the same again if and only if event and body equal the stored ones, and then nothing changes; otherwise it is a collision, the first differing digest stays, and the row is rejected if and only if it had neither authority nor outcome; a new delivery is stored if and only if there is room, under the next number and with its own evidence only |
| `Inbox.RejectKeepsInv` | src/hamsterdan2/host/webhook_inbox.py:353-377 | rejection keeps the inbox invariant and only evolves rows |
| `Inbox.AuthorizeKeepsInv` | src/hamsterdan2/host/webhook_inbox.py:463-497 | authorization, duplicate and replay keep the inbox invariant, with one owner per observation key |
| `Inbox.MarkRecordedKeepsInv` | src/hamsterdan2/host/webhook_inbox.py:605-627 | recording keeps the inbox invariant and only evolves rows |
| `Inbox.OpenKeepsInv` | src/hamsterdan2/host/pr_workflows.py:123-203 | opening keeps the invariant, one action per pull request, and never changes a registered workflow |
| `Inbox.CollidedRowsAreConcluded` | src/hamsterdan2/host/webhook_inbox.py:422-442 | a collided row without authority has an outcome, so the branch for one without is never taken |
| `Runtime.LogRefinement` | src/hamsterdan2/readiness/runtime.py:181-311 | for any interleaving of accepts, completions and other transitions' records, parsing raises no corruption and returns exactly the abstract queue, in acceptance order with its occurrences and finished flags, and every reply agrees |
| `Runtime.AcceptSimulates` | src/hamsterdan2/readiness/runtime.py:438-470 | accepting against the log and against the queue give the same reply and related states, errors included |
| `Runtime.CompleteSimulates` | src/hamsterdan2/readiness/runtime.py:366-395 | completing against the log and against the queue give the same reply and related states |
| `Runtime.SelectsFirstUnfinished` | src/hamsterdan2/readiness/runtime.py:357-363 | the least unfinished occurrence is the first unfinished observation in acceptance order, else the latest |
| `Runtime.ReadinessRuntime.Accept` | src/hamsterdan2/readiness/runtime.py:438-470 | on the queue the log represents: a known delivery answers with its occurrence and changes nothing, a new one joins the end under a fresh occurrence, an error changes nothing, and capacity is refused exactly when the queue machine refuses it |
| `Runtime.ReadinessRuntime.CompleteNextObservation` | src/hamsterdan2/readiness/runtime.py:472-498 | on the queue the log represents: exactly the first unfinished delivery is finished and reported, or all are finished and the last is reported with nothing changed; an error changes nothing, not-accepted means the queue is empty, and capacity that the bounds are passed or two more records do not fit |
| `History.ParseRefinesQueue` | src/hamsterdan2/readiness/runtime.py:194-311 | a log that represents a queue parses to exactly that queue |
| `History.AppendAcceptance` | src/hamsterdan2/readiness/runtime.py:220-237 | a delivery and its begun firing extend the represented queue by one unfinished entry |
| `History.AppendCompletion` | src/hamsterdan2/readiness/runtime.py:250-293 | a produced token and a terminal record finish exactly one entry |
| `History.FinishedMeans` | src/hamsterdan2/readiness/runtime.py:239-293 | unfinished if and only if neither terminal nor product follows; finished only by one completion and one product, its token; a failed or second terminal is an error |
| `RuntimeRuns.CompletesInOrder` | src/hamsterdan2/readiness/runtime.py:366-395 | a run completes exactly the finished observations, each once, in strictly increasing occurrence order |
| `RuntimeRuns.DrainsInUnfinishedCalls` | src/hamsterdan2/readiness/runtime.py:472-498 | with capacity, n unfinished observations are completed by n calls, one each |
| `RuntimeRuns.ThenStaysCompleted` | src/hamsterdan2/readiness/runtime.py:366-395 | after that every call leaves History unchanged and reports already completed |
| `RuntimeRuns.StaysBounded` | src/hamsterdan2/readiness/runtime.py:157-178 | accepts and completions never push a workflow past 4096 records |
| `RuntimeRuns.ReplayIsStable` | src/hamsterdan2/readiness/runtime.py:453-468 | an accepted identity is accepted again at any later point, even at full capacity, with the same occurrence and no growth |
| `IntakeExample.RuntimeHypothesesAreMet` | src/hamsterdan2/readiness/runtime.py:438-470 | an admissible run with an observation left to complete |
| `Intake.BridgedIsWellFormed` | src/hamsterdan2/readiness/workflow_bridge.py:136-168 | whatever the bridge emits can be parsed back from History and carries the prepared identity |
| `Intake.IdentityDeterminesKey` | src/hamsterdan2/readiness/workflow_bridge.py:99-114 | unless the two hashed materials collide, a delivery identity determines observation key and policy revision |
| `Application.AuthorizeRow` | src/hamsterdan2/host/webhook_inbox.py:463-497 | the authorization steps, with the owner lookup as a scan, give the specified rows and decision |
| `Application.RecordRow` | src/hamsterdan2/host/webhook_inbox.py:605-627 | one transaction over both stores: offer, accept, mark recorded |
| `WorkerTurn.AuthorizationOutcome` | src/hamsterdan2/host/application.py:89-155 | which deliveries the worker authorizes, and with what, and why it refuses each other one |
| `WorkerTurn.RejectionOutcome` | src/hamsterdan2/host/webhook_inbox.py:353-377 | rejecting an undecided row writes exactly the reason and the webhook, or nothing when the reason or the webhook's provenance is bad |
| `WorkerTurn.OwnedIsConcluded` | src/hamsterdan2/host/webhook_inbox.py:463-497 | an observation another row owns: duplicate of that row if and only if the canonical texts agree, otherwise a key collision; never authorized |
| `WorkerTurn.UnownedIsGranted` | src/hamsterdan2/host/webhook_inbox.py:463-497 | an unowned one is granted, and the row holds webhook, route, intake and policy |
| `WorkerTurn.WorkerBuiltHolds` | src/hamsterdan2/readiness/workflow_bridge.py:117-168 | the columns and the token in History carry the webhook's own head and base commits, mergeability and policy |
| `WorkerTurn.AcceptanceByRoom` | src/hamsterdan2/readiness/runtime.py:438-470 | acceptance by what the log shows: refused exactly without room, a known delivery adds nothing, a new one its two records |
| `WorkerTurn.OfferedByRoom` | src/hamsterdan2/host/webhook_inbox.py:605-627 | an offer logs the delivery and, unless the process crashes, records the row; without room nothing changes |
| `WorkerTurn.GrantThenOffer` | src/hamsterdan2/host/application.py:64-87 | authorization followed by the offer is the turn of a delivery that is neither refused nor owned |
| `Application.Host.ProcessDelivery` | src/hamsterdan2/host/application.py:64-155 | a whole turn, exactly: a concluded delivery is reported, an authorized one offered again; one with neither is rejected with the normalizer's reason, as an unconfigured route or as an unsupported head exactly in those cases, and otherwise holds its webhook, the configured route and this policy, as a duplicate or key collision of the owner or, unowned, offered to History, where it is logged with its head and base and recorded unless there is no room or a crash; at most two permitted steps |
| `Application.Host.RecordInHistory` | src/hamsterdan2/host/application.py:82-87 | keeps the joint invariant, is one permitted step, and answers what the recording transaction does |
| `Application.Host.ReceiveDelivery` | src/hamsterdan2/host/webhook_inbox.py:549-560 | one permitted step that keeps the joint invariant; the answer and the rows are what the receipt means: same again, collision, received or no capacity, each exactly when it should be |
| `Application.Host.RejectWith` | src/hamsterdan2/host/webhook_inbox.py:573-591 | keeps the joint invariant and is one permitted step |
| `Application.Host.AuthorizeWith` | src/hamsterdan2/host/webhook_inbox.py:593-603 | keeps the joint invariant and is one permitted step |
| `Application.Host.OpenPullRequestWorkflow` | src/hamsterdan2/host/pr_workflows.py:224-242 | one permitted step that keeps the joint invariant; a clash, a full registry and a crash are answered exactly when they occur, the History is created unless it exists, and otherwise the workflow is registered |
| `Application.Host.CompleteNextObservation` | src/hamsterdan2/host/application.py:169-173 | keeps the joint invariant; not-registered, not-accepted and capacity exactly when they apply; an error leaves every History as it is; otherwise the observations show exactly the first unfinished one finished, or all finished and the last reported |
| `Application.CompleteIn` | src/hamsterdan2/readiness/runtime.py:366-395 | one completion through the runtime loaded for the workflow, on any represented History, in terms of its parsed observations |
| `Markers.MarkerIsInjective` | src/hamsterdan/github_app/effects.py:80-84 | admitted triples with the same marker are the same triple |
| `Markers.PayloadMatchesOwnTriple` | src/hamsterdan/github_app/effects.py:703-704 | for every body text a rendered payload is matched as final marker by its own triple only |
| `Markers.FindOperationIsFinalMarker` | src/hamsterdan/github_app/effects.py:171-184 | on every text the lookup by operation recovers a head if and only if the marker with that head is final |
| `Markers.FindOperationRecoversHead` | src/hamsterdan/github_app/effects.py:171-184 | a rendered head comes back, for its own kind and operation only |
| `Comments.PostCounts` | src/hamsterdan/github_app/effects.py:131-159 | a post adds one holder of its own marker and touches no other, whatever its body says |
| `Comments.OwnCountDecides` | src/hamsterdan/github_app/effects.py:131-159 | when only one marker changed, uniqueness of all markers is decided by its own count |
| `Comments.LandingKeeps` | src/hamsterdan/github_app/effects.py:393-412 | landing any subset of a batch of unheld findings does, and holds exactly the landed ones |
| `Comments.FoundIffHeld` | src/hamsterdan/github_app/effects.py:707-711 | a lookup finds a comment if and only if the marker is held |
| `CodeHost.Provider.PostBatch` | src/hamsterdan/github_app/effects.py:393-428 | any part of a batch may land and lose its answer; status 200 means all of it |
| `Findings.CommentPublisher.Immutable` | src/hamsterdan/github_app/effects.py:112-169 | only its own marker changes and no issue list ever holds it twice; all markers stay unique when no review comment holds it, in particular for every kind but findings; an available result names the one issue comment; every post follows a granted fence and fenced means it refused, capability-unavailable means 403 or 404, and with a readable list an error means nothing landed; on an obliging provider an unheld marker is created, and a held one is resumed if its text is known and otherwise a collision |
| `Findings.CommentPublisher.InlineFinding` | src/hamsterdan/github_app/effects.py:538-588 | no marker is ever held twice; every post follows a granted fence and fenced means it refused; inline-unavailable means the line was refused and nothing landed; with readable lists an error other than an unreadable reference means nothing landed |
| `Findings.CommentPublisher.Publish` | src/hamsterdan/github_app/effects.py:316-364 | under every plan all markers stay unique if the finding is located or no review comment holds its marker, and only then: otherwise an obliging provider ends with two holders; the inline flag says which list holds it; on an obliging provider an unheld finding is created, inline if it is located, and a held one is resumed if its text is known and otherwise a collision |
| `Findings.CommentPublisher.ReconcileBatch` | src/hamsterdan/github_app/effects.py:451-474 | every finding is settled by a result or pending and held nowhere |
| `Findings.SortOut` | src/hamsterdan/github_app/effects.py:458-474 | the reconcile loop over one reading of both lists: what is not pending is settled, what is pending is absent, and it is an error if and only if some held text is not the finding's |
| `Findings.BatchKeepsClean` | src/hamsterdan/github_app/effects.py:393-428 | whatever part of the bot's own batch lands, no later reading of it is a collision |
| `Findings.OthersKeepLook` | src/hamsterdan/github_app/effects.py:458-474 | other people's comments neither cause nor hide a collision |
| `Findings.CommentPublisher.PublishBatch` | src/hamsterdan/github_app/effects.py:366-438 | no finding marker is ever held by two of the bot's comments, through three attempts, partial landings and lost answers; a normal return gives one result per finding, in order, each naming its one holder; with a provider that obliges batches it returns, and exactly the unheld findings are created; a collision is reported if and only if one was there and the lists could be read, fenced if and only if the fence refused, and a boundary error only after an unreadable list, three attempts without a proof, or a final rejection; with readable lists an error other than a collision means some finding is held nowhere |
| `Findings.RelocatedFindingRepeats` | src/hamsterdan/github_app/effects.py:333-364 | the failing run: published with its line and then without it, an operation's marker is held twice |
| `Trailers.MessageCarriesOwnTrailer` | src/hamsterdan/host/git_publish.py:439-446 | an admitted message carries its own operation and digest line exactly once each and no other's, whatever the proposed text says |
| `Trailers.LinesAcrossBlank` | src/hamsterdan/host/git_publish.py:140-143 | line counts on both sides of the blank line add up, also when the proposed text ends in a carriage return |
| `GitPublish.SingleCommit` | src/hamsterdan/host/git_publish.py:252-267 | a first-parent history holds the operation at most once |
| `GitPublish.OneCommitPerOperation` | src/hamsterdan/host/git_publish.py:82-181 | in every interleaving of publishers sharing operation and expected head with foreign and forced pushes, no first-parent history holds two commits of the operation |
| `GitPublish.SecondCommitIff` | src/hamsterdan/host/git_publish.py:252-267 | without a shared head, a new commit is the only one in its history if and only if the head's history holds none |
| `GitPublisher.Search` | src/hamsterdan/host/git_publish.py:252-276 | found if and only if exactly one commit of the operation is in the history, exact and with the expected parents; absent if and only if there is none |
| `GitPublisher.CreatedIsFound` | src/hamsterdan/host/git_publish.py:140-144 | the commit a publisher creates is the one a later reconcile finds, from any branch position that reaches it |
| `GitPublisher.CreatedIsFoundIff` | src/hamsterdan/host/git_publish.py:140-144 | it is the one found if and only if operation and digest are single lines |
| `GitPublisher.CreatedOtherwise` | src/hamsterdan/host/git_publish.py:252-264 | otherwise: absent for a line break in the operation, the idempotency error for one in the digest alone |
| `GitPublisher.BrokenOperationIsNeverFound` | src/hamsterdan/host/git_publish.py:252-259 | an operation with a line break in it matches no line of any commit |
| `GitPublisher.CreatedIsForeignElsewhere` | src/hamsterdan/host/git_publish.py:439-446 | a publisher's commit carries the line of its own operation only |
| `GitPublisher.HostGitPublisher.Reconcile` | src/hamsterdan/host/git_publish.py:183-276 | for every plan: which error it ends in, and otherwise absent or existing exactly as the history says of a position the branch held during the call, with only the self-caused lag tolerated |
| `GitPublisher.HostGitPublisher.AdvanceRef` | src/hamsterdan/host/git_publish.py:353-362 | the swap moves the branch if and only if it stands at the expected head and is not refused, and may lose its answer |
| `GitPublisher.HostGitPublisher.Publish` | src/hamsterdan/host/git_publish.py:82-181 | for every plan: a returned head is the operation's only commit in the first-parent history of a position the branch held between call and return, with exactly this operation, digest and expected parents; it is recovered if and only if no swap of this publication was proved; the swap is tried only while the pull request shows expected head and base twice over; every history holds the operation at most once. A history that holds the operation is the result; without it and undisturbed up to the swap, the result is what the swap and the lookup after it give; undisturbed throughout, the branch moves to the new commit, which is returned, recovered exactly when the swap's answer was lost |
| `GitPublisher.HostGitPublisher.SwapIsFound` | src/hamsterdan/host/git_publish.py:145-181 | a swap nobody interferes with ends in the new commit, also when its answer is lost or the pull request lags behind |
| `Custody.WebhookCustody.PendingOf` | src/hamsterdan/github_app/webhooks.py:259-302 | the due prefix: no waiting row of the pull request is passed over, and what is left out stands at or behind a deferred row or the limit |
| `Custody.WebhookCustody.Eligible` | src/hamsterdan/github_app/webhooks.py:315-340 | true if and only if the delivery is the due head of its pull request's order |
| `Custody.WebhookCustody.Retry` | src/hamsterdan/github_app/webhooks.py:349-368 | charges a pending row one attempt with its delay, fails it at the twentieth, touches nothing else |
| `Custody.DelayDoubles` | src/hamsterdan/github_app/webhooks.py:364 | the delay starts at one second and doubles up to 300 |
| `Custody.ChargeDefers` | src/hamsterdan/github_app/webhooks.py:349-368 | a charged row is deferred by that delay, or failed at the twentieth attempt |
| `Custody.WebhookCustody.Receive` | src/hamsterdan/github_app/webhooks.py:189-204 | a new delivery identifier is appended pending, or terminal for a lifecycle event; a known one is a duplicate and changes nothing |
| `Custody.WebhookCustody.Acknowledge` | src/hamsterdan/github_app/webhooks.py:342-347 | exactly one row becomes terminal |
| `Custody.WebhookCustody.Requeue` | src/hamsterdan/github_app/webhooks.py:400-413 | reopens a failed row from zero attempts and no other row |
| `Activation.HostService.ActivateInstance` | src/hamsterdan/host/service.py:681-777 | one activation charges at most one attempt to any delivery and exactly as `Charge` says; every attempted delivery ends acknowledged or charged and not both; an applied one is acknowledged only after the settle that follows its application; attempts are in row order with no waiting row passed over. What it starts from is exactly the due rows with fewer than 1000 ahead, or the given delivery at the head of the order; each that is addressed is reached, unless one before it raised, for every instance that is known or has a route and a watched author; what becomes terminal was attempted, was unaddressed, or belongs to an unwatched author; and it is stated exactly when the activation runs and when it raises |
| `Activation.DueIsRead` | src/hamsterdan/github_app/webhooks.py:259-302 | a reading of 1000 rows is exactly the due rows with fewer than 1000 waiting rows of the pull request ahead |
| `Activation.HostService.ApplyBatch` | src/hamsterdan/host/service.py:728-741 | rows are attempted in batch order until one raises, which is charged at once |
| `Activation.HostService.NextBatch` | src/hamsterdan/host/service.py:743-750 | what arrived since is in turn: whatever waits earlier was attempted or is earlier in the batch |
| `Activation.HostService.Conclude` | src/hamsterdan/host/service.py:763-768 | acknowledgement of a delivery whose application was settled keeps the event order: applied, settled, acknowledged |
| `ServiceOrder.FirstAttemptsInRowOrder` | src/hamsterdan/host/service.py:693-768 | over every sequential run without requeue, first attempts of one pull request happen in row order |
| `ServiceOrder.InServiceOrderIff` | src/hamsterdan/host/service.py:693-777 | for every run: first services happen in row order if and only if no row that an activation overtook is served by a later activation |
| `ServiceOrder.OutOfOrderIsOvertaken` | src/hamsterdan/host/service.py:728-777 | two rows of a pull request served out of row order: the earlier one was overtaken by an activation and served by a later one |
| `ServiceOrder.OvertakenThenServed` | src/hamsterdan/host/service.py:728-777 | and conversely, an overtaken row served later puts first services out of row order |
| `ServiceOrder.FirstServicesInRowOrder` | src/hamsterdan/host/service.py:693-768 | in every run without an overtaking activation first services happen in row order at every moment, and no moment has a pending row before a served one |
| `ServiceOrder.SafeIffNotOvertaken` | src/hamsterdan/host/service.py:451-453 | from a safe past an activation leaves a safe past if and only if it does not overtake: skip a never-served row with attempts left at the route guard, serve a later one, then fail |
| `ServiceOrder.RunIsSafeIff` | src/hamsterdan/host/service.py:693-777 | no moment of a run has a pending, never-served row before a served one, if and only if no activation overtakes |
| `ServiceOrder.ActivationKeepsOrder` | src/hamsterdan/host/service.py:728-741 | from a safe past every activation serves in row order |
| `ServiceOrder.LateServiceIsOutOfOrder` | src/hamsterdan/host/service.py:728-741 | once an overtaken row is served, first services are out of row order |
| `Overtaking.OvertakingRun` | src/hamsterdan/host/service.py:728-777 | the failing run: two deliveries, a first activation that skips the first at the route guard, serves the second and fails to settle, a second activation; the second delivery was served first |
| `ServiceOrder.OrderedAttempt` | src/hamsterdan/host/service.py:729-732 | attempting a row whose earlier waiting rows were attempted keeps the order invariant |
| `Runnable.RunnableIndex.Wake` | src/hamsterdan/host/runnable.py:94-106 | a wake is inserted or lowered, never raised |
| `Runnable.RunnableIndex.ReplaceTimer` | src/hamsterdan/host/runnable.py:108-118 | replaces or clears the timer rows of one instance and keeps all other hints |
| `Runnable.RunnableIndex.TakeDue` | src/hamsterdan/host/runnable.py:123-145 | returns the earliest distinct due instances in order, up to the clamped limit, and removes exactly their due rows |
| `Runnable.RunnableIndex.Drain` | src/hamsterdan/host/runnable.py:123-145 | repeated takes without new wakes return each due instance once and leave exactly the rows that are not due |
| `Runnable.Scheduler.RunDue` | src/hamsterdan/host/service.py:779-796 | every taken instance is activated exactly once and in order; exactly those that raised are recorded as failed and hold a due wake, the others are cleared and counted; of all other rows only the timers of activated instances may go |
| `AgentRoutes.RunIsFenced` | src/hamsterdan/host/agenticus.py:241-304 | after every run from an empty store each unresolved operation carries exactly the active composition |
| `AgentRoutes.CompositionIsImmutable` | src/hamsterdan/host/agenticus.py:262-280 | an operation keeps its first composition through any later commands, and resolved work is never claimable again |
| `AgentRoutes.ClaimOutcome` | src/hamsterdan/host/agenticus.py:262-280 | in every reachable store the mismatch after the commit is impossible, and a claim succeeds if and only if its composition is active and the operation is not resolved |
| `AgentRoutes.ActivationOutcome` | src/hamsterdan/host/agenticus.py:241-260 | in every reachable store the active route can move if and only if it stays the same or all unresolved work is terminal |
| `AgentRoutes.AgentRouteStore.ClaimOperation` | src/hamsterdan/host/agenticus.py:262-280 | keeps the fence and every earlier claim, and answers as the claim's exact condition says |
| `AgentRoutes.AgentRouteStore.ActivateRoute` | src/hamsterdan/host/agenticus.py:241-260 | keeps the fence and resolves exactly the terminal claims; a refusal changes nothing, settlement included |
| `AgentRoutes.AgentRouteStore.SettleOperations` | src/hamsterdan/host/agenticus.py:282-284 | keeps the fence; resolves exactly the named claims and touches no other, or is malformed and changes nothing |
| `Routing.RoutesAreSafe` | src/hamsterdan/github_app/routing.py:36-175 | after a reconcile and any lifecycle events, every route is a configured repository of its account and a repository routes through one installation only |
| `Routing.RunKeepsValid` | src/hamsterdan/github_app/routing.py:36-103 | any lifecycle events keep one installation per account and no orphaned repository row |
| `Routing.Rebuild` | src/hamsterdan/github_app/routing.py:145-174 | a matching inventory gives exactly its installations and exactly their configured repositories |
| `Routing.ReconciledRoutes` | src/hamsterdan/github_app/routing.py:128-175 | right after a reconcile exactly the configured repositories route, each through its account's installation |
| `Routing.InstallationRegistry.InstallationChanged` | src/hamsterdan/github_app/routing.py:36-75 | the specified tables and answer for every action, keeping the invariant |
| `Routing.InstallationEventMeans` | src/hamsterdan/github_app/routing.py:36-75 | in terms of routes: entering activates and drops the account's other installations, a suspended or deleted one routes nothing, a deleted one leaves no row, everything else stays, a refused event changes nothing |
| `Routing.InstallationRegistry.Reconcile` | src/hamsterdan/github_app/routing.py:137-175 | replaces everything if and only if the inventory matches the configuration, else changes nothing |
| `Routing.InstallationRegistry.RepositoriesChanged` | src/hamsterdan/github_app/routing.py:77-103 | the row-by-row loop gives the specified rows and keeps the invariant |
| `Routing.ChangedRows` | src/hamsterdan/github_app/routing.py:77-103 | row by row: removed ones are gone, added ones are there under the configured name, every other row stays |
| `Routing.RemovedRoutesNothing` | src/hamsterdan/github_app/routing.py:77-103 | a removed repository routes no more |
| `Configuration.InstallationAccounts` | src/hamsterdan/github_app/config.py:138-174 | accepted if and only if account, login, repository identifier and name are unique over the document; then no repository is configured twice and every account keeps its repositories |
| `Archive.ValidatedEntries` | src/hamsterdan/host/pi_workspace.py:227-273 | an archive is admitted if and only if it is admissible, with exactly its entries |
| `Archive.SafePathStaysInside` | src/hamsterdan/host/pi_workspace.py:316-319 | an admitted path, walked part by part, ends exactly at its own name below where it starts; no part holds a separator or names the repository's own directory |
| `Archive.RequiredIsAncestors` | src/hamsterdan/host/pi_workspace.py:267-270 | parents of files and all parents of those are exactly the proper ancestors |
| `Archive.FilesArePrefixFree` | src/hamsterdan/host/pi_workspace.py:265-272 | no admitted file lies above an admitted entry, and every admitted directory has a file below it |
| `Archive.Extract` | src/hamsterdan/host/pi_workspace.py:276-307 | extraction meets no conflict and yields exactly the admitted files and directories |
| `Archive.OrderDoesNotMatter` | src/hamsterdan/host/pi_workspace.py:276-286 | reordering the entries keeps them extractable with the same tree |
| `Crop.Changed` | tools/demo-video/live/region.ts:12-63 | the tightest box around every differing pixel and their exact number, nothing if and only if none differs |
| `Crop.FramingCovers` | tools/demo-video/live/region.ts:86-99 | a box on the canvas that fits the frame stays whole in the window through half-up rounding and clamping |
| `Crop.FramingCentres` | tools/demo-video/live/region.ts:86-99 | the window is centred on its region to half a pixel, or starts at its top when the region is taller, unless an edge of the canvas holds it back |
| `Crop.WalkDescends` | tools/demo-video/live/region.ts:103-109 | the page walk starts at the top, never goes back and ends at the bottom |
| `Crop.PlanTransition` | tools/demo-video/live/transition.ts:69-105 | the window lies in the canvas; framed as a change it shows every differing pixel, and it is framed so if and only if the change is more than noise and its box fits the frame; framed by an anchor it is the window around the later state's anchor, or the earlier one's |

## Left out

- Petri-net topology and the V5 gates: their transitions are not in these modules; other transitions' records appear as arbitrary unrelated records.
- Engine, dispatch and agent runtime internals: only the engine behaviour listed above is assumed.
- HTTP, SQLite, subprocesses, files, HMAC, key custody: replaced by atomic steps with free outcomes.
- The envelope loop of `history_payloads` and JSON byte limits: a History page is its sequence of records, and stored bytes are a parameter.
- `workflow_id` strings: a workflow is named by its pull request identity.
- `WebhookInbox.resources` and the opening checks of the application database: read-only reporting and schema checks.
- Per-field validators of webhook and configuration values: one branch each; folded names are taken as given, and `Trailers.Fold` takes the folding of non-ASCII characters as a parameter.
- The dashboard comment, reruns, and `finding_find`: the dashboard marker names no operation, and the others only read.
- Finding texts: rendering is any three functions of finding and head, so the results hold for every wording.
- Overlapping calls of one comment publisher: a marker has a single writer (effects.py, docstring of `finding_find`), so calls come one after another.
- Patch application, staged-tree checks and temporary clones in `git_publish.py`: they end in a refusal or a created commit, which is all the protocol sees.
- Uncustodied observations, requeue within an ordered run and `process_one`: direct activation of deliveries custody does not know is a compatibility seam; a requeue reopens a failed row and with it the order.
- Custody write failures during an activation: the accounting assumes them away, as it must to say that a charge happened; failing reads are modelled.
- Legacy schema migration and `_terminal_operations` in `agenticus.py`: the terminal set is a parameter.
- Archive.ValidatedEntries: takes decoded members; tar decoding and the byte limit on the archive itself are not modelled, and the denied root names are a parameter.
- Crop.NearIdentical: real division stands for floating-point division.
- `planTransitions`, pacing and captions: a map over `planTransition` and constants.
