# Verification of the adapter, relay, coordination and generator protocols

This project models the crash-tolerant parts of the repository in Dafny and proves what they
promise over whole runs. A protocol is a transition system: one step is the code between two
awaits, a crash is a step that drops everything but what was written, and a run is any sequence
of steps. Code that updates state in place is a class whose methods are proved against the
transition system or against a function of the old state.

- `JsonKey`, `Protocol`: JavaScript strings as UTF-16 code units and the text `JSON.stringify`
  makes of a ledger key, read back by a parser; the values the parties exchange. Envelope hashes
  and request fingerprints are constructors, so injective and opaque.
- `LedgerModel`, `DispatchLedger`: the write-ahead journal, the index replayed from it, restart,
  and appends that throw with or without leaving their record; the class that does it in place.
- `AdapterServer`, `AdapterHandler`: any number of concurrent submissions over one ledger, with
  joiners, crashes and restarts, from any journal, also one with old flattened keys; and the
  handler's maps updated in place, one method per stretch of code between awaits.
- `RelayQueue`, `RelayProtocol`, `RelayLedger`, `RelayCache`, `RelayProgress`,
  `VerifierRelayWorker`: the relay queue and the drain loop over it; the relay, the worker's state
  file and the adapter's journal as one protocol with two durable stores, what it never does and
  what it gets done; and the worker's loops, proved to perform its steps.
- `Txn`: the multi-file update as methods over a disk whose every operation may succeed, throw or
  be its process's last, and its recovery, which may be interrupted as often.
- `HardenedFetch`, `OAuthRefresh`, `OAuthSession`: the limited retry; the refresh of a session
  against an authorization server that may rotate the token; and the session object and the
  refresh transaction in place, proved to perform the protocol's steps.
- `ApprovalEvaluator`, `WorkflowModel`, `CoordinationStore`: the approval expression, the workflow
  as a function on values, and the store's shared objects updated in place.
- `WorkflowTables`, `SqliteWorkflowStore`: the two relations with their constraints, leases and
  purge, and the transactions over them.
- `SchemaRebase`, `RequirementCheck`, `Regeneration`: moving a schema with its references, the
  satisfiability check of a default requirement, and repeated generator runs with edits between.

Where the code does not meet what one would expect of it, the code is modelled as it is and the
exact condition is proved:

- A purge of the workflow store is not one transaction. Cut off between its two deletes it leaves
  a terminal workflow that no Action ID finds until its row is deleted; every other workflow is
  found by its current Action ID (`AliasesHold`, `CutOffPurgeLosesAliases`).
- An approval expression with overrides and no thresholds is met by any decision that is no veto
  (`OverridesAloneAskForNothing`, `OverridesAloneSettleAtOnce`). An expression is open exactly when
  it can still be met if no signer is asked for two decisions and none who may veto is asked to
  reject (`OpenMeansAttainable`). That condition is sufficient, and not shown to be necessary:
  without it an expression may stay pending for ever (`MixedThresholdsCanBeStuck`,
  `AskedVetoIsStuck`), but need not.
- Profile validation lets a threshold name a group and also hold an empty inline list or one with
  repeats. The empty one is refused although the group decides (`EmptyListIsRefused`); repeats are
  counted, so a configuration nobody can satisfy is accepted (`RepeatsAreCounted`,
  `RepeatsShutOut`). For every tree in which no signer is asked for two decisions it can be met
  exactly when its distinct signers suffice (`AttainableIsCountable`), which is what the check says
  of clean lists (`CheckIsExact`); one that asks a signer for two decisions may be accepted and
  never met (`ClashIsAccepted`).
- A generator run that stops, or throws on a classification it cannot parse, after its tool list
  and before its plugin loses the new tools: no later run governs them until a written list lacks
  them (`CutOffLosesNewTools`), though the comment there says new tools are never missed silently.
  `NextRunIsExact` and `MembershipIsExact` say over all runs, cut-off ones too, when a tool is
  governed.
- Rebasing also rewrites literals that look like local references, under `const` for instance;
  `RebaseIsIdentity` says exactly when a value is left as it was. It keeps the meaning of a schema
  if local references are not made by `$ref` under a `$id`, nor by `$dynamicRef` or `$recursiveRef`
  elsewhere (`MeaningIsKept`). With a `$id` at the root a rebased reference resolves exactly when
  the schema has a node at `/properties/arguments` followed by its tokens
  (`ScopedReferencesDangle`); a reference by one of the other two keywords is left as it is, and
  resolves exactly when the wrapped document has a node at its tokens (`DynamicReferencesDangle`,
  `DynamicReferenceIsLost`).
- A signer whose approval request comes from a threshold that names no decision is asked to reject,
  unless it has an override with approve, while the evaluator counts approvals there. The decision
  asked for is the one counted exactly when the threshold names one or the signer has such an
  override (`RequestIsCounted`); otherwise following the request can reject the workflow
  (`FollowedRequestRejects`).

Assumptions the theorems make of the outside: one worker is the only submitter in the relay
protocol, takes no step after a fatal error until it is restarted, and the relay's clock does not
go back; no two targets of an update coincide or collide with the files the update itself uses,
and an operation that throws leaves everything but its own destination as it was; the
authorization server does not rotate a token when it answers with a client error, a rate limit or
`invalid_client`, or when the request never reached it; and a replacement is asked for from one of
the two open states its type allows, since the statement itself would reopen a settled workflow
(`ReplacementReopens`).

## Model

| member | source | states |
|---|---|---|
| JsonKey.ParseOfStringify | cli/src/adapter/dispatch-ledger.ts:294-298 | the text a key is stored under can be read back to the strings and nulls it was made of |
| JsonKey.StringifyInjective | cli/src/adapter/dispatch-ledger.ts:294-298 | two arrays of strings and nulls share a text only if they are equal |
| LedgerModel.KeyInjective | cli/src/adapter/dispatch-ledger.ts:245-250 | a pair never shares a key with another pair or with an old flattened key |
| LedgerModel.DispatchTextInjective | cli/src/adapter/adapter-api-server.ts:809-812 | the in-flight key names exactly one scope, value and envelope hash |
| LedgerModel.VerdictIsExact | cli/src/adapter/dispatch-ledger.ts:142-163 | what a submission is told, by the one record that names its action: under its pair, or under an old text, which is the value alone without a scope and else scope, colon and value |
| LedgerModel.GateIsExact | cli/src/adapter/dispatch-ledger.ts:170-186 | the gate opens exactly if no record names the action and the write-ahead record is written, and then only that entry is new |
| LedgerModel.OutcomeIsRecorded | cli/src/adapter/dispatch-ledger.ts:189-224 | an unfinished record takes a response exactly if it reports this envelope and the append succeeds; nothing else moves |
| LedgerModel.ResponseIsAttached | cli/src/adapter/dispatch-ledger.ts:189-224 | a resolved record takes a first response that repeats its resolution, and nothing else |
| LedgerModel.RecoveryIsExact | cli/src/adapter/dispatch-ledger.ts:230-239 | what is recovered is what the action's record was resolved with, for exactly its envelope |
| LedgerModel.ReplayOfRecords | cli/src/adapter/dispatch-ledger.ts:278-291 | replaying the journal with the records recovery appended gives the index recovery left |
| LedgerModel.RestartRefinesJournal | cli/src/adapter/dispatch-ledger.ts:252-291 | after a start the index is the fold of the journal |
| LedgerModel.RestartSettlesOnlyUnfinished | cli/src/adapter/dispatch-ledger.ts:273-291 | a start changes exactly the executing entries, each to an indeterminate outcome |
| LedgerModel.RestartIsIdempotent | cli/src/adapter/dispatch-ledger.ts:273-291 | a second start appends nothing and changes nothing |
| LedgerModel.AuthorizeRefines | cli/src/adapter/dispatch-ledger.ts:170-186 | a successful write-ahead append keeps the index equal to the fold of the journal |
| LedgerModel.ResolveRefines | cli/src/adapter/dispatch-ledger.ts:189-224 | a successful resolution keeps the index equal to the fold of the journal |
| LedgerModel.RunKeepsAhead | cli/src/adapter/dispatch-ledger.ts:170-224 | over any run with failing appends the journal already proves all the index holds |
| LedgerModel.ResolutionIsFinal | cli/src/adapter/dispatch-ledger.ts:189-224 | over any run a resolution never changes, and a response attached is the one every later process holds |
| DispatchLedger.DispatchJournal.Record | cli/src/adapter/dispatch-ledger.ts:78-90 | an append adds its record at the end, or throws before or after doing so |
| DispatchLedger.DispatchLedger.constructor | cli/src/adapter/dispatch-ledger.ts:252-271 | the loop over the journal builds the fold of its records |
| DispatchLedger.DispatchLedger.Recover | cli/src/adapter/dispatch-ledger.ts:278-291 | recovery appends the records of the unfinished entries in order, and stops at the first append that throws with a prefix written |
| DispatchLedger.DispatchLedger.Open | cli/src/adapter/dispatch-ledger.ts:129-135 | opening a ledger is a restart of its journal, and if an append throws leaves a part of its records |
| DispatchLedger.DispatchLedger.CheckSubmission | cli/src/adapter/dispatch-ledger.ts:142-162 | the action to take for a submission, by the status and hash of the record that names its action, in either form |
| DispatchLedger.DispatchLedger.AuthorizeDispatch | cli/src/adapter/dispatch-ledger.ts:170-186 | check and write-ahead in one step; a throwing append leaves the index alone |
| DispatchLedger.DispatchLedger.ResolveDispatch | cli/src/adapter/dispatch-ledger.ts:189-224 | records an outcome once, attaches a response once, refuses one that does not match |
| DispatchLedger.DispatchLedger.RecoverResponse | cli/src/adapter/dispatch-ledger.ts:230-239 | terminal material for exactly this envelope |
| AdapterServer.AtMostOnce | cli/src/adapter/adapter-api-server.ts:453-480 | over every interleaving, crash and restart, from any journal, an Action ID reaches transmission at most once, and never if the journal holds a record under its pair or under its old text |
| AdapterServer.OutcomeIsTold | cli/src/adapter/adapter-api-server.ts:549-575 | over every run, when a dispatch came back and was recorded, its submission and every joiner it answers are told one response, executed only if the tool answered without an error and indeterminate only for an error that leaves the outcome open; unrecorded, they are told none |
| AdapterServer.NewSubmissionIsServed | cli/src/adapter/adapter-api-server.ts:453-522 | from any run, a submission no record names is transmitted, and it and a resubmission meanwhile get the response that reports the target's result, which the journal then holds |
| AdapterServer.KnownIsRefused | cli/src/adapter/adapter-api-server.ts:218-227 | a submission whose record is resolved, or is of another envelope, is told so and changes nothing |
| AdapterServer.KnownIsRefusedAtGate | cli/src/adapter/adapter-api-server.ts:453-462 | at the gate it is told the same after its unused session is closed, or 500 if closing throws |
| AdapterServer.ExecutingIsInFlight | cli/src/adapter/adapter-api-server.ts:512-531 | while no dispatch threw, what the ledger calls executing is in flight, led by a submission of the same envelope |
| AdapterServer.JoinersAreAnswered | cli/src/adapter/adapter-api-server.ts:103-129 | a joiner never transmits, and is answered with the outcome of the dispatch it joined, 409 for a different request, 500 when closing its own session threw, and 503 when its wait expired; only after a dispatch threw also 503 for nothing in flight or no outcome |
| AdapterHandler.AdapterHandler.Receive | cli/src/adapter/adapter-api-server.ts:218-227 | the ledger is asked before any stateless rejection, and a duplicate captures its dispatch before anything is awaited |
| AdapterHandler.AdapterHandler.Gate | cli/src/adapter/adapter-api-server.ts:453-522 | transmit and register, join, or refuse after closing the session, in one step with the ledger's gate |
| AdapterHandler.AdapterHandler.RecordOutcome | cli/src/adapter/adapter-api-server.ts:475-507 | the response that reports the target's result is recorded before it is returned |
| AdapterHandler.AdapterHandler.SettleDispatch | cli/src/adapter/adapter-api-server.ts:522-531 | the promise settles and exactly this dispatch leaves the map |
| AdapterHandler.AdapterHandler.Join | cli/src/adapter/adapter-api-server.ts:111-123 | a joiner waits for what it captured, or is told 409 or 503 |
| RelayQueue.SelectIsExact | cli/src/coordination/store.ts:371-377 | a poll selects exactly the later unexpired deliveries to that DID, in order |
| RelayQueue.PollIsExact | cli/src/coordination/store.ts:371-384 | a poll answers with the first hundred deliveries to the DID that are after its cursor and unexpired, in order, and with all of them if they are fewer |
| RelayQueue.CursorAdvances | cli/src/coordination/store.ts:377-385 | a page has a cursor exactly when it has deliveries, and the cursor moves forward |
| RelayQueue.DrainIsExact | cli/src/adapter/verifier-relay-worker.ts:256-287 | a drain yields a delivery exactly when it was unexpired at the poll that reached it, and reaches every one |
| RelayQueue.DrainedIsHeld | cli/src/adapter/verifier-relay-worker.ts:256-287 | a drain yields nothing the relay did not hold for that DID after the cursor |
| RelayQueue.DrainedAdvances | cli/src/adapter/verifier-relay-worker.ts:256-287 | what a drain yields is in sequence order, each once |
| RelayQueue.Queue.StoreEnvelope | cli/src/coordination/store.ts:494-502 | one copy per recipient is appended under consecutive sequence numbers |
| RelayQueue.DrainAvailableWork | cli/src/adapter/verifier-relay-worker.ts:256-287 | the loop ends against a queue that stops growing, receives what the polls drain, and never meets a cursor that does not advance |
| RelayLedger.ActionRelay | cli/src/coordination/store.ts:150-189 | relaying keeps one envelope per Action ID value and one delivery per action and verifier |
| RelayLedger.ActionIsQueued | cli/src/coordination/store.ts:150-189 | an action is filed under its hash and Action ID and queued once for each recipient, under the next numbers, exactly if its proposer sent it unexpired to the verifier, among others, its hash is new and its Action ID not another's; else nothing changes |
| RelayLedger.FingerprintIsExact | sdk/protocol/src/lib/routing.ts:427-455 | two deliveries count as one exactly if sender, recipients in any order, package and binding agree |
| RelayLedger.ResponseRelay | cli/src/coordination/store.ts:197-236 | accepting a response only adds to the relay's queue and books |
| RelayLedger.ResponseIsQueued | cli/src/coordination/store.ts:198-217 | an accepted response is queued for each recipient, and is the action's response exactly if it is the first |
| RelayLedger.TransmittedOnce | cli/src/adapter/daemon.ts:182-242 | over every run of relay, worker and adapter an action is transmitted at most once |
| RelayLedger.AnswersAgree | cli/src/adapter/daemon.ts:182-195 | all answers the ledger backs for one envelope are the same terminal response |
| RelayLedger.NeverConfused | cli/src/adapter/daemon.ts:221-229 | no run ends in a replay, a hash mismatch, or a response of another verifier or envelope |
| RelayLedger.UnansweredOnlyIfUnknown | cli/src/adapter/dispatch-ledger.ts:226-291 | in every journal this adapter writes a resolved action lacks a response only if it is indeterminate |
| RelayLedger.CrashMakesDurable | cli/src/adapter/dispatch-ledger.ts:174-184 | a crash with the executing record on disk is enough for recovery |
| RelayLedger.DurableStays | cli/src/adapter/dispatch-ledger.ts:252-291 | once so, in every continuation of the run |
| RelayLedger.RedeliveryAnswers | cli/src/adapter/daemon.ts:182-195 | such an action redelivered is answered at once with a terminal response, the one given before if any, and nothing is transmitted |
| RelayCache.WindowKept | cli/src/coordination/store.ts:371-377 | a delivery on the next page stays on it while it is wanted, whatever is appended or expires |
| RelayCache.RetriesAreIdentical | cli/src/adapter/verifier-relay-worker.ts:307-346 | every retry for one delivery, in any process, sends the identical envelope |
| RelayCache.OneAcceptedResponse | cli/src/coordination/store.ts:197-215 | every response the relay accepts for one action is the one response it keeps |
| RelayCache.CursorIsSafe | cli/src/adapter/verifier-relay-worker.ts:265-279 | every delivery at or before the persisted cursor was expired when reached, had its response accepted, or was left out of a page that passed it because it was expired at that poll |
| RelayCache.CursorAlwaysAdvances | cli/src/adapter/verifier-relay-worker.ts:266-271 | the non-advancing-cursor error never happens |
| RelayProgress.ActionReachesAPage | cli/src/adapter/verifier-relay-worker.ts:256-287 | over every run, an action the relay let in is on a page the worker got by the time a poll of the drain comes back empty, unless it is expired by then |
| RelayProgress.TransmissionIsExact | cli/src/adapter/verifier-relay-worker.ts:289-346 | over every run, a step transmits an action exactly if it processes a delivery that is unexpired, allowed, not cached and not in the ledger, the handler got ready, and the write-ahead record was written |
| RelayProgress.NewActionIsAnswered | cli/src/adapter/verifier-relay-worker.ts:289-346 | from any run, a delivery its ledger has not seen is transmitted, and when nothing fails the relay takes and keeps the response that reports the target's result |
| RelayProgress.ActionIsServed | cli/src/adapter/verifier-relay-worker.ts:256-287 | for every action and every result there is a run that transmits it once, has the one accepted response report that result, and moves the cursor past it |
| RelayProgress.SubmissionIsAccepted | cli/src/coordination/store.ts:218-245 | over every run, the relay's rules let in the response the worker is about to submit |
| RelayProgress.SubmissionEnds | cli/src/adapter/verifier-relay-worker.ts:338-346 | over every run, a submission is accepted exactly if it arrives and is admissible; then it is marked unless the reply was lost, an unreachable relay or a lost reply leaves it to be submitted again, and a refusal ends the worker |
| RelayProgress.AcceptedIsAddressed | cli/src/coordination/store.ts:218-232 | a response is taken exactly if it is the verifier's own, names a filed action, and is for its proposer |
| RelayProgress.OutcomeIsKept | cli/src/adapter/adapter-api-server.ts:549-575 | over every run, once a dispatch's result came back and was recorded, every answer the ledger gives for its envelope, after restarts too, reports that result |
| VerifierRelayWorker.VerifierRelayWorker.ProcessAction | cli/src/adapter/daemon.ts:182-240 | recovery from the ledger, then injection, as the protocol's step says |
| VerifierRelayWorker.VerifierRelayWorker.ProcessDelivery | cli/src/adapter/verifier-relay-worker.ts:289-346 | one delivery is processed by steps of the protocol |
| VerifierRelayWorker.VerifierRelayWorker.Complete | cli/src/adapter/verifier-relay-worker.ts:273-277 | the loop moves the cursor and deletes exactly the delivered responses |
| VerifierRelayWorker.VerifierRelayWorker.DrainAvailableWork | cli/src/adapter/verifier-relay-worker.ts:256-287 | what the drain does continues the protocol run that led to it; it ends with nothing left to fetch, at its bound of polls, stuck, or with the step that dropped the page |
| VerifierRelayWorker.PerformIsRun | cli/src/adapter/verifier-relay-worker.ts:189-193 | steps performed after a run are a longer run, so every theorem about runs applies |
| Txn.SuffixApart | cli/src/cli/installer/txn.ts:22-29 | staged, kept and temporary names never coincide |
| Txn.InstallNext | cli/src/cli/installer/txn.ts:85-88 | each rename keeps everything undoable and one more target new |
| Txn.RestoreOne | cli/src/cli/installer/txn.ts:102-110 | putting one target back keeps the rest undoable and what is already old, old |
| Txn.WriteMarker | cli/src/cli/installer/txn.ts:26-31 | the marker is whole, or what it was |
| Txn.CommitChanges | cli/src/cli/installer/txn.ts:40-100 | wherever it stops, the update is undoable or the committed marker was in place with every target new; it is done, all new under the right modes and nothing left over, exactly if every operation succeeded; and if one alone threw before that marker, everything is as it was |
| Txn.RollBack | cli/src/cli/installer/txn.ts:102-111 | every target old again, or still undoable |
| Txn.RecoverInterruptedUpdate | cli/src/cli/installer/txn.ts:114-145 | a completed recovery leaves all new if committed and all old if not, and it completes exactly if every operation succeeds; a stopped one can be run again; an unreadable marker changes nothing |
| Txn.UpdateAndRecover | cli/src/cli/installer/txn.ts:40-145 | crash atomicity over any number of interrupted recoveries, with every other file untouched; recovered and committed if every operation succeeds |
| HardenedFetch.CodeIsWithin | cli/src/adapter/hardened-fetch.ts:270-285 | the search finds a connect failure exactly when one lies within four steps of parts and causes |
| HardenedFetch.UnsentIsExact | cli/src/adapter/hardened-fetch.ts:270-285 | an error proves a request unsent exactly if a connect failure lies within four steps of it or a name failure within four causes |
| HardenedFetch.FetchIsExact | cli/src/adapter/hardened-fetch.ts:148-206 | a second attempt is made exactly when the first failed without abort or exhausted budget, on a managed transport, with a body that can be sent again, and had no connection or timed out while only reading |
| HardenedFetch.WrapProvesNoMore | cli/src/adapter/hardened-fetch.ts:250-268 | wrapping an error never makes it prove more |
| HardenedFetch.WritesReachOnce | cli/src/adapter/hardened-fetch.ts:176-211 | a request that does more than read reaches the server at most once |
| HardenedFetch.UnsentMeansUnsent | cli/src/adapter/hardened-fetch.ts:176-211 | when what surfaces proves the request unsent, no attempt of it reached the server |
| HardenedFetch.ReadsMayReachTwice | cli/src/adapter/hardened-fetch.ts:206-211 | a timed-out read may be sent twice |
| OAuthRefresh.AttemptsAreFetch | cli/src/adapter/hardened-fetch.ts:176-203 | the attempts of the refresh request, step by step, are the hardened fetch of it, and what surfaces is what the token failure is classified from |
| OAuthRefresh.DefiniteMeansNotRotated | cli/src/adapter/oauth-operator.ts:2549-2598 | an answer classified as definite did not rotate the token |
| OAuthRefresh.DefiniteFailureReopens | cli/src/adapter/oauth-operator.ts:1518-1555 | a definite failure other than a revoked grant lifts the fence its own marker put up and keeps the token |
| OAuthRefresh.AnswersAreClassified | cli/src/adapter/oauth-operator.ts:2455-2483 | an answer is saved, leaves doubt, refuses the grant or limits the rate exactly by its status, error and body |
| OAuthRefresh.LostRequestLeavesDoubt | cli/src/adapter/oauth-operator.ts:2527-2547 | a request the transport gives up on leaves doubt exactly when what surfaces does not prove it unsent |
| OAuthRefresh.FailureDecidesNext | cli/src/adapter/oauth-operator.ts:1518-1555 | the token is kept, and the next refresh is refused for good after a doubtful outcome or a refused grant, until the server's time after a rate limit, and else free |
| OAuthRefresh.PrepareIsExact | cli/src/adapter/oauth-operator.ts:920-990 | when a prepare is refused, goes on, or starts a refresh, and that only a changed binding is written down |
| OAuthRefresh.RefreshSucceeds | cli/src/adapter/oauth-operator.ts:920-990 | from any state, a due prepare on an unfenced session refreshes it, and when nothing fails goes ahead with the server's new token, or the old one if it sent none |
| OAuthRefresh.RefusedGrantIsDead | cli/src/adapter/oauth-operator.ts:1518-1555 | over every run, once a refused grant is written down its token is never sent again, even after a login, and until a login nothing is sent and no prepare is served |
| OAuthRefresh.FencedIsRefused | cli/src/adapter/oauth-operator.ts:931-938 | a prepare that reads a fenced session is refused and starts nothing |
| OAuthRefresh.PrepareInv | cli/src/adapter/oauth-operator.ts:939-982 | a prepare, also one with a stale session, never leaves a doubtful token unfenced |
| OAuthRefresh.AnswersInv | cli/src/adapter/oauth-operator.ts:2462-2482 | the server may answer at any time, also after the process is gone |
| OAuthRefresh.NeverResent | cli/src/adapter/oauth-operator.ts:1424-1512 | over every run a refresh token the server may have rotated, or may still rotate, is never sent, by the transaction or by the transport's retry; once sent, one request alone carries it |
| OAuthRefresh.DoubtIsFenced | cli/src/adapter/oauth-operator.ts:1563-1566 | while the stored token may have been rotated, the stored session is refused |
| OAuthSession.StoredSession.SaveTokens | cli/src/adapter/oauth-operator.ts:768-789 | the old refresh token is kept when none is returned, and the fence goes in the same write |
| OAuthSession.StoredSession.PersistTokenFailure | cli/src/adapter/oauth-operator.ts:1518-1555 | the token is kept, doubt is fenced, and a login is demanded exactly if the grant was refused |
| OAuthSession.StoredSession.MarkRefreshInFlight | cli/src/adapter/oauth-operator.ts:1563-1566 | the marker is written before sending, or the write is known to have failed |
| OAuthSession.Refresher.RefreshOAuthSession | cli/src/adapter/oauth-operator.ts:1424-1512 | the whole transaction continues the protocol run that led to it, so every theorem about runs applies; it refreshed exactly if the session was due and free and a usable answer was stored, and then the new token is behind no fence |
| ApprovalEvaluator.EvaluateThreshold | sdk/protocol/src/lib/approval-requirements.ts:69-86 | the counting loop over distinct eligible signers gives the threshold's status |
| ApprovalEvaluator.ImmutableDecisionMap | sdk/protocol/src/lib/approval-requirements.ts:57-67 | the map exists exactly when no signer has two decisions, and holds them all |
| ApprovalEvaluator.UnreachableIsFinal | sdk/protocol/src/lib/approval-requirements.ts:28-55 | no further decisions bring an unreachable expression back |
| ApprovalEvaluator.SatisfiedIsExact | sdk/protocol/src/lib/approval-requirements.ts:28-57 | satisfied exactly if nobody who may veto rejected, and somebody who may override approved or all of the one list and one of the other have enough distinct signers with the decision asked for |
| ApprovalEvaluator.SatisfiedUntilVeto | sdk/protocol/src/lib/approval-requirements.ts:35-48 | a satisfied expression stays so until a signer who may veto rejects |
| ApprovalEvaluator.OpenMeansAttainable | sdk/protocol/src/lib/approval-requirements.ts:49-55 | not unreachable means that further decisions can meet it, and only then, if no signer is asked for two decisions and none who may veto is asked to reject |
| ApprovalEvaluator.MixedThresholdsCanBeStuck | sdk/protocol/src/lib/approval-requirements.ts:49-52 | with a signer asked for two decisions pending may never become satisfied |
| ApprovalEvaluator.AskedVetoIsStuck | sdk/protocol/src/lib/approval-requirements.ts:35-52 | nor with a signer who may veto and is asked to reject |
| WorkflowModel.CountedConsistent | cli/src/coordination/store.ts:318-322 | the evaluator's conflicting-decisions error cannot arise |
| WorkflowModel.ApprovedKeeps | cli/src/coordination/store.ts:307-333 | an accepted approval keeps one decision per signer, never the proposer's, and the state the evaluator's verdict |
| WorkflowModel.ApprovalIsExact | cli/src/coordination/store.ts:537-590 | an approval is taken exactly if the action is alive and somebody other than its proposer signed it, for the first time where one is awaited or repeating the signer's own decision; a first one is added |
| WorkflowModel.CreateKeeps | cli/src/coordination/store.ts:263-305 | creating files an action under its hash and its Action ID, or returns the one there |
| WorkflowModel.CreateIsExact | cli/src/coordination/store.ts:263-305 | an action is created exactly when package and authorization fit its envelope, nothing is filed under its hash and its Action ID is not another's |
| WorkflowModel.CancelStoreKeeps | cli/src/coordination/store.ts:387-443 | only an awaiting action is cancelled, and nothing else of it changes |
| WorkflowModel.CancelIsExact | cli/src/coordination/store.ts:387-443 | an action is cancelled exactly by its proposer, while it awaits approvals and has not expired |
| WorkflowModel.RunEvolves | cli/src/coordination/store.ts:307-443 | over any run only awaitingApprovals leads to ready, rejected, cancelled or expired and ready only to expired; approvals are append-only and frozen after; both maps hold the same actions under their own keys |
| WorkflowModel.ExpiredIsExact | cli/src/coordination/store.ts:519-535 | over any run, an action is expired exactly if a poll, or a creation of the same action, found it open at or past its expiry |
| WorkflowModel.RequestIsExact | cli/src/coordination/store.ts:592-612 | a signer is asked about an action exactly if it awaits approvals, lists the signer, and has no decision of the signer's |
| WorkflowModel.UpdateIsExact | cli/src/coordination/store.ts:344-369 | an action's proposer, and nobody else, is told its state, with the completed package just when it is ready |
| WorkflowModel.OverridesAloneSettleAtOnce | cli/src/coordination/store.ts:318-329 | without thresholds the first decision settles the workflow |
| WorkflowModel.CompletedIsExact | cli/src/coordination/store.ts:674-689 | the completed package is the original approvals and exactly the stored ones not there by signature, each once, all bound to that envelope |
| WorkflowModel.RequestIsCounted | cli/src/coordination/store.ts:592-606 | the decision a signer is asked for is counted by its threshold exactly when that threshold names a decision or the signer has an override with approve |
| WorkflowModel.FollowedRequestRejects | cli/src/coordination/store.ts:592-606 | a workflow one approval would complete is rejected when its only signer decides as asked |
| CoordinationStore.StoredAction.Accept | cli/src/coordination/store.ts:310-333 | the object takes the decision and the verdict the model computes |
| CoordinationStore.CoordinationStore.CreateWorkflow | cli/src/coordination/store.ts:263-305 | the two maps of shared objects become what the model says |
| CoordinationStore.CoordinationStore.SubmitApproval | cli/src/coordination/store.ts:307-342 | one object changes as the model says, seen through both maps |
| CoordinationStore.CoordinationStore.CancelAction | cli/src/coordination/store.ts:387-443 | the same for cancelling, with its errors in their order |
| CoordinationStore.CoordinationStore.Poll | cli/src/coordination/store.ts:344-369 | the loop expires every due action and reports requests and updates in order of creation |
| WorkflowTables.AliasesHold | cli/src/bridge/sqlite-workflow-store.ts:49-145 | every alias finds its workflow, and over every run a workflow's current Action ID finds it exactly when no purge of it was cut off; one that was is found by none |
| WorkflowTables.CutOffPurgeLosesAliases | cli/src/bridge/sqlite-workflow-store.ts:238-245 | from a purge cut off between its deletes no Action ID finds the workflow in any run, until its row is deleted |
| WorkflowTables.CutOffTears | cli/src/bridge/sqlite-workflow-store.ts:238-245 | any due workflow can be the one a cut-off purge leaves with its row and no aliases |
| WorkflowTables.AssignedActionIdsFind | cli/src/bridge/sqlite-workflow-store.ts:95-105 | every Action ID ever assigned finds its workflow until that is purged |
| WorkflowTables.TerminalIsFinal | cli/src/bridge/sqlite-workflow-store.ts:197-222 | a terminal state and its resolution never change until the row is deleted |
| WorkflowTables.PurgeIsExact | cli/src/bridge/sqlite-workflow-store.ts:231-246 | over every run, a purge keeps a workflow exactly if it is open, not expired, or settled no longer ago than the retention; of any other it leaves nothing |
| WorkflowTables.CreateIsExact | cli/src/bridge/sqlite-workflow-store.ts:49-86 | a workflow is created exactly when its task is new and its Action ID is nobody's, and is then found by it |
| WorkflowTables.ReplaceIsExact | cli/src/bridge/sqlite-workflow-store.ts:107-145 | an action is replaced exactly from the state asked for by an Action ID that is nobody's; both then find the workflow |
| WorkflowTables.MoveIsExact | cli/src/bridge/sqlite-workflow-store.ts:147-155 | a workflow moves between open states exactly from the one asked for |
| WorkflowTables.SettleIsExact | cli/src/bridge/sqlite-workflow-store.ts:197-224 | a workflow is settled exactly when it is open, with its time |
| WorkflowTables.ReplacementReopens | cli/src/bridge/sqlite-workflow-store.ts:107-145 | the statement reopens a row in the terminal state it is asked to replace from; `fromState` is typed as two open states, so no typed caller asks |
| WorkflowTables.OneLease | cli/src/bridge/sqlite-workflow-store.ts:157-169 | at no instant do two workers hold a lease on one workflow, and the row names the holder |
| WorkflowTables.ClaimIsExact | cli/src/bridge/sqlite-workflow-store.ts:157-169 | a claim is granted exactly on an open workflow on which no other worker holds a lease, and gives its worker the lease asked for |
| SqliteWorkflowStore.SqliteWorkflowStore.CreateWorkflow | cli/src/bridge/sqlite-workflow-store.ts:49-86 | both rows or neither, and a database error exactly if a statement failed |
| SqliteWorkflowStore.SqliteWorkflowStore.ReplaceAction | cli/src/bridge/sqlite-workflow-store.ts:107-145 | alias and row, or neither, and a database error exactly if a statement failed |
| SqliteWorkflowStore.SqliteWorkflowStore.ClaimWorkflow | cli/src/bridge/sqlite-workflow-store.ts:157-169 | the lease is taken or renewed in one statement |
| SqliteWorkflowStore.SqliteWorkflowStore.PurgeExpiredResults | cli/src/bridge/sqlite-workflow-store.ts:231-246 | the loop removes exactly the due workflows and their aliases, or, exactly if a statement failed, stops after some of them and maybe half of one |
| SchemaRebase.TokensConcat | bridge-generator/src/plugin-codegen.ts:57-58 | a pointer put after another has the tokens of both |
| SchemaRebase.TokensOfPointer | bridge-generator/src/plugin-codegen.ts:57-58 | any tokens written as a JSON Pointer, escapes included, are read back (RFC 6901, sections 3 and 4) |
| SchemaRebase.IndexOfDigits | bridge-generator/src/plugin-codegen.ts:57-58 | an array index is written in plain digits, each number in just one way (RFC 6901, section 4) |
| SchemaRebase.ReferencesKeepTheirTargets | bridge-generator/src/plugin-codegen.ts:25-33 | a rebased local reference resolves in the wrapped schema exactly when it did, and to the rebased node |
| SchemaRebase.RebaseTwice | bridge-generator/src/plugin-codegen.ts:47-64 | rebasing twice is rebasing once with the bases put together |
| SchemaRebase.RebaseIsIdentity | bridge-generator/src/plugin-codegen.ts:47-64 | a value changes exactly when it holds a local reference and the base is not the document |
| SchemaRebase.MeaningIsKept | bridge-generator/src/plugin-codegen.ts:25-33 | unless a local reference is made by `$ref` under a `$id`, or by `$dynamicRef` or `$recursiveRef` elsewhere, unfolding all references to any depth gives the same in the wrapped document as in the schema's own |
| SchemaRebase.ScopedReferencesDangle | bridge-generator/src/plugin-codegen.ts:47-64 | with a `$id` at the root a rebased reference dangles exactly when the schema has no node at `/properties/arguments` followed by the reference's tokens |
| SchemaRebase.DynamicReferencesDangle | bridge-generator/src/plugin-codegen.ts:57-64 | a local `$dynamicRef` or `$recursiveRef` is left as it is, and dangles exactly when the wrapped document has no node at its tokens |
| SchemaRebase.DynamicReferenceIsLost | bridge-generator/src/plugin-codegen.ts:57-64 | a `$dynamicRef` or `$recursiveRef` that resolves in the schema dangles in the wrapped document |
| RequirementCheck.SatisfiedIsMet | sdk/protocol/src/lib/policy-engine.ts:434-530 | evaluation is satisfied exactly if no signer decided twice differently and every threshold the tree needs has enough distinct signers, none the proposer, with the decision asked for |
| RequirementCheck.AttainableIsCountable | sdk/protocol/src/lib/policy-engine.ts:434-530 | some approvals of others meet a validated tree only if it has the distinct signers for it, and whenever it has if no signer is asked for two decisions |
| RequirementCheck.CheckIsExact | cli/src/adapter/config-loader.ts:617-643 | over clean lists the check accepts a validated tree that asks no signer for two decisions exactly when approvals of others can meet it |
| RequirementCheck.AcceptedMeansAttainable | cli/src/adapter/config-loader.ts:591-611 | a configuration is accepted exactly when everyone in the group of proposers, or everyone if there is none, has a way to approval; a refused one names somebody who has none |
| RequirementCheck.UnsatisfiedIsFound | cli/src/adapter/config-loader.ts:597-609 | a proposer is reported exactly when one is shut out |
| RequirementCheck.EmptyListIsRefused | cli/src/adapter/config-loader.ts:627-630 | an empty inline list is refused though evaluation falls back to the group |
| RequirementCheck.RepeatsAreCounted | cli/src/adapter/config-loader.ts:627-630 | repeats in an inline list are counted by the check and not by evaluation |
| RequirementCheck.RepeatsShutOut | sdk/protocol/src/lib/policy-engine.ts:270-273 | a validated configuration is accepted that no approvals can ever meet |
| RequirementCheck.ClashIsAccepted | cli/src/adapter/config-loader.ts:632-635 | a tree that asks one signer for two decisions is accepted and never met |
| Regeneration.SortToolsSorts | bridge-generator/src/artifacts.ts:79-81 | the sorted list is in ascending order and holds exactly the tools given |
| Regeneration.SortIgnoresOrder | bridge-generator/src/artifacts.ts:79-81 | the order in which tools are listed does not matter, and nothing else is forgotten |
| Regeneration.MergeClassificationDraft | bridge-generator/src/artifacts.ts:146-168 | the loop over the sorted tools builds the merged classification |
| Regeneration.FilesAreWritten | bridge-generator/src/generate.ts:109-150 | over all runs, completed or cut off, which plugin, tool list and classification exist |
| Regeneration.MembershipIsExact | bridge-generator/src/generate.ts:319-340 | over all runs, completed or cut off, a tool is governed exactly when some completed run took it in and every one since found it and no review deleted it |
| Regeneration.NextRunIsExact | bridge-generator/src/generate.ts:308-317 | the next run governs a tool it finds exactly when no plugin existed, the plugin had it, or the last written list lacks it |
| Regeneration.NewOperationIsHinted | bridge-generator/src/artifacts.ts:151-180 | a tool without an entry gets critical if it says it is destructive and else what its name hints at, and a new operation has the impact of its tool's entry |
| Regeneration.OutStaysOut | bridge-generator/src/generate.ts:308-317 | a listed tool that is not in the plugin stays out until a written list lacks it |
| Regeneration.DeletedStaysOut | bridge-generator/src/generate.ts:308-317 | a deleted tool stays out while it remains upstream |
| Regeneration.MissingListIsConservative | bridge-generator/src/generate.ts:328-337 | with a plugin and no tool list written yet, the next run governs a found tool exactly when the plugin has it |
| Regeneration.GovernedStaysIn | bridge-generator/src/generate.ts:308-317 | a governed tool stays in while it remains upstream and is not deleted |
| Regeneration.AbsentIsAdded | bridge-generator/src/generate.ts:308-317 | a tool absent from the last written list is added by the next run that finds it |
| Regeneration.CutOffLosesNewTools | bridge-generator/src/generate.ts:109-150 | a run cut off after its tool list loses the new tools for every later run, until a written list lacks them |
| Regeneration.ImpactsSurvive | bridge-generator/src/generate.ts:141-148 | over any runs and reviews an operation that stays keeps its impact unless a review changes it |
| Regeneration.EntriesSurvive | bridge-generator/src/artifacts.ts:146-168 | over any runs, cut-off ones too, a classification entry survives verbatim while its tool is upstream |
| Regeneration.DraftIsExact | bridge-generator/src/artifacts.ts:139-168 | over any runs the draft flag is down exactly when a review took it down and since then none put it up and no run added a tool |

## Left out

- Signatures, JWS, JCS hashing, receipts and HTTP authentication: opaque values or choices of the environment.
- Verification, policy, credential and target preparation before the ledger write are choices of the environment; what one process's static configuration refuses before it asks the ledger is fixed for that process.
- Journal timestamps, and torn lines in the journal or the state file: a record is there or it is not.
- Runs in which one action arrives directly and through the relay at once: `AdapterServer` covers at-most-once and joining for direct submissions, the relay protocol recoverability for relayed ones.
- The relay's books of relayed actions are modelled on values; its queue is a class. The map of running refresh transactions is a value too: there is at most one, and prepares join it.
- OAuthSession.Refresher.RefreshOAuthSession: while the method runs nothing else happens; prepares, logins, late answers and crashes interleave freely in `OAuthRefresh`.
- VerifierRelayWorker.VerifierRelayWorker.DrainAvailableWork: nothing arrives at the relay while the method runs, because arrivals are steps of the protocol in `RelayProtocol`, where they interleave freely; the abort signal is a bound on the number of polls.
- The relay itself does not crash; its queue, idempotency cache and waiting callers are kept in memory by the original. The cache, the routing audit, promises and their timeouts are not modelled.
- Response routing to administratively authorized recipients, and the requirements a response carries: a choice of the environment.
- Cursor texts that are not numbers, and numbers beyond what a JavaScript number holds exactly.
- The dispatch-time OAuth provider and operator commands in another process write their own session snapshot; only a login that stores a new token is modelled. Expiry times of access tokens are choices.
- Locking: one command at a time runs an update; directories, `lock.ts` and power loss are not modelled. File modes are permission bits only.
- Approval progress counts, times of creation and update, participants and notifications. An envelope expiry that is no date never expires in the original and is not modelled.
- Schema migration, row conversion, listing of recoverable workflows and the JSON texts in the columns.
- References by anchor or percent-encoding, references by a `$id`'s own URI, and property names a JavaScript object treats specially.
- Policy entries with conditions; only the default requirement is evaluated.
- Files kept by `.generator-keep`, operations added by hand, and all other generated text. The words that hint at an impact are a function of the name.
