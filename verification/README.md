# Airlock verification

A Dafny 4.11 model of the issuer airlock and the services around it, with proofs of what they keep
over whole runs. `dafny verify dfyconfig.toml` checks everything.

Ten parts, each a specification as functions on values, lemmas about that specification, and, where
the program updates things in place, a class or a loop proved equal to it:

- **Rate limiter** (`RateLimiter`): the token bucket with bounded memory refines the unbounded one.
- **Airlock engine** (`Transitions`, `Challenges`, `Airlock*`): devices, tokens, provisioning requests,
  transactions, one-time challenges and the daily spend ledger agree after every call, throwing calls
  included. `Airlock` has the calls, `AirlockInvariant`, `AirlockCalls` and `AirlockInvalidation` the
  relation each call keeps, `AirlockRuns`, `AirlockTheorems` and `AirlockHistory` what runs guarantee,
  `AirlockRestore`, `AirlockRestoreRuns` and `AirlockStuck` exactly when a snapshot restores,
  `AirlockAcceptance` which snapshots of any origin are accepted, `AirlockAnswers` exactly when each call
  succeeds and what it then leaves, `AirlockEngine` the class.
- **Audit log** (`AuditChain`, `AuditLog`): hash chain, keyring and trust anchor.
- **Remote audit commit** (`RemoteAudit*`): prepare, publish and commit over two stores as moves of many
  processes, with a crash or a throw possible at every await.
- **Customer operations** (`Operations*`): event-sourced cases, dual-control trust resets, cached failures;
  `OperationsAnswers` exactly when each call succeeds and who moved each case, `OperationsAcceptance` which
  snapshots are accepted, `OperationsKeys` the texts its maps are keyed by.
- **Canonical bytes** (`Unicode`, `Canonical*`): the UTF-16 printer, its code-point twin, a parser, and
  in `CanonicalText` which bindings have bytes and where each field stands in them.
- **Durable store and lab servers** (`DurableStore`, `LabPersistence`, `LabServer`): compare-and-swap,
  transactional idempotency, and many servers on one database.
- **Outbox and dispatcher** (`Timestamps`, `Outbox*`, `Dispatcher*`): leases compared as texts, at-least-once
  delivery, circuit breaker, dead letters; `OutboxAnswers` and `DispatcherAnswers` when each step succeeds.
- **Cap ledger** (`CapLedger`): daily caps and reservations as committed transactions.
- **Partner webhook** (`Webhook`): signed strings, replay windows, idempotent application.

`Common`, `Wrappers`, `MapSums` and `Listings` are shared helpers.

Signatures, MACs and digests are function parameters. A lemma that needs them collision free, or their
output well shaped, says so in its `requires`. Times are integer milliseconds (the rate limiter uses
reals) and every call is given its one `now`.

Eight properties hold only under a condition, which is proved to be the exact one or to be needed:

- An airlock snapshot does not restore while a pending aggregate points at a challenge that a late
  approval marked expired, which stays so until its device is revoked, marked compromised or rotated
  (`AirlockRestoreRuns.SnapshotRoundTrip`, `AirlockStuck.RestoresIff`, `AirlockRestoreRuns.LateApprovalSticks`).
- An operations snapshot does not restore after a trust reset request whose expiry lies past the last
  representable date: the case is marked pending before the date is built, and building it throws
  (`OperationsTheorems.StepStrandsIff`, `OperationsTheorems.LastHourStrands`).
- The operations theorems need tenant ids without colons. Ids may hold them, the maps are keyed by
  `tenant:id` texts, and a record found is not compared with the tenant asking: a request of tenant `a`
  can move a case of tenant `a:b`, and its override then makes restoring refuse the snapshot
  (`OperationsKeys.TextRunIsRun`, `OperationsKeys.SameTextIff`, `OperationsKeys.CollisionCrossesTenants`).
- Outbox leases exclude other workers, whatever their clocks, exactly when they end in the years 0 to 9999
  or in the first year a Date can hold, since texts of other years do not sort by time (`Outbox.OverlapsIff`);
  one that runs into year 10000 or crosses a year before year 0 does not even hold when granted
  (`Outbox.LeaseProtectsIff`).
- The daily-cap arithmetic is exact in doubles exactly for caps up to the bound the engine checks
  (`AirlockTheorems.CapBoundIsExact`).
- The relation that every airlock call keeps holds after restoring a snapshot of another origin exactly when the
  snapshot also meets what restore does not check: spend within caps, states of tokens, reservations of the
  transactions' amounts (`AirlockAcceptance.RestoredInvIff`, `AirlockAcceptance.OverspentIsAccepted`).
- The rate limiter decides as the unbounded one with a clock that does not go back, which `Date.now` may; with
  any clock the window bound holds, counted over its forward moves
  (`RateLimiter.ClockGoingBackParts`, `RateLimiter.WindowBound`).
- Remote audit needs a `publish` that throws to have had no effect, and no open during an append
  (`RemoteAuditTheorems.PublishMustNotThrowLate`, `RemoteAuditTheorems.OpenMustWaitForAppends`).

## Model

| member | source | states |
|---|---|---|
| `RateLimiter.BoundedRefinesUnbounded` | apps/realtime-lab/server.ts:167-227 | over any run, takes not refused because the table is full are decided exactly as by an unbounded token bucket per client, whatever was evicted |
| `RateLimiter.TakeRefines` | apps/realtime-lab/server.ts:167-210 | one take that is not refused by the full table decides as the unbounded limiter, and levels stay equal |
| `RateLimiter.DroppingFullKeepsLevels` | apps/realtime-lab/server.ts:219-227 | evicting a fully refilled bucket changes no client's level |
| `RateLimiter.TakeKeepsValid` | apps/realtime-lab/server.ts:167-210 | after every take the table holds at most maxClients buckets, each between zero and capacity, in insertion order without repetition, and with a forward clock none is stamped in the future |
| `RateLimiter.WindowBound` | apps/realtime-lab/server.ts:190-210 | whichever way the clock moves, in every window of every run a client is admitted at most capacity + rate * forward times, across evictions, where forward is what the clock moves forward in the window |
| `RateLimiter.RetryAfterSuffices` | apps/realtime-lab/server.ts:198-210 | a blocked client that stays tracked and waits the advertised Retry-After is admitted on its next take |
| `RateLimiter.UntouchedWhileTracked` | apps/realtime-lab/server.ts:167-210 | takes of other clients leave a tracked client's bucket as it was |
| `RateLimiter.WaitRefills` | apps/realtime-lab/server.ts:193-210 | waiting the advertised time refills at least the missing part of a token |
| `RateLimiter.MutationRateLimiter.Take` | apps/realtime-lab/server.ts:167-210 | the method computes the take of the specification, new table and decision |
| `RateLimiter.MutationRateLimiter.FindEvictableFullBucket` | apps/realtime-lab/server.ts:219-227 | the scan finds the first fully refilled bucket in insertion order, or none when there is none |
| `RateLimiter.MutationRateLimiter.Charge` | apps/realtime-lab/server.ts:191-210 | refill, charge or refuse, and move to the tail |
| `RateLimiter.RefusedIff` | apps/realtime-lab/server.ts:178-187 | a take is refused by the full table exactly when the client is new, the table is at its limit and no bucket is fully refilled; it then changes nothing |
| `RateLimiter.AllowedIff` | apps/realtime-lab/server.ts:189-209 | any other take is allowed exactly when the client is new or what its bucket held, with the refill since, makes a whole token; the bucket is then stamped now, capped and one token lower |
| `RateLimiter.EvictsOldestFull` | apps/realtime-lab/server.ts:178-188 | a table at its limit makes room by dropping its oldest fully refilled bucket and nothing else |
| `RateLimiter.RetryAfterIsLeast` | apps/realtime-lab/server.ts:201-207 | no smaller whole number of seconds than the advertised one suffices |
| `RateLimiter.ClockGoingBack` | apps/realtime-lab/server.ts:193-195 | a clock that is not past a bucket's stamp refills nothing and stamps the bucket with its reading |
| `RateLimiter.ForwardIsElapsed` | apps/realtime-lab/server.ts:190-210 | for a clock that does not go back that is the time from the first take of the window to the last |
| `RateLimiter.ClockGoingBackParts` | apps/realtime-lab/server.ts:167-210 | the refinement needs such a clock: a concrete run of four takes with one step back admits a client that the unbounded limiter refuses |
| `RateLimiter.NewLimiter` | apps/realtime-lab/server.ts:152-162 | a limiter is built exactly for a capacity and a table of at least one and a positive rate |
| `Transitions.TransitionTransaction` | packages/state-machine/transitions.ts:27-35 | a step is taken only along the table, and lowers the transaction's rank |
| `Transitions.TransitionProvisioning` | packages/state-machine/transitions.ts:37-45 | a step is taken only along the table, and lowers the request's rank |
| `Challenges.ConsumeMoves` | packages/state-machine/challengeStore.ts:111-138 | consuming moves at most the named challenge out of created, stamps it with the time of the call, and marks it expired when it throws for lateness |
| `Challenges.CancelMoves` | packages/state-machine/challengeStore.ts:140-150 | cancelling moves at most the named challenge out of created and stamps it |
| `Challenges.ConsumeAdvances` | packages/state-machine/challengeStore.ts:111-138 | a consumed record keeps its binding and stays well formed |
| `Challenges.CancelAdvances` | packages/state-machine/challengeStore.ts:140-150 | a cancelled record keeps its binding and stays well formed |
| `Challenges.ChallengeStore.Create` | packages/state-machine/challengeStore.ts:86-109 | the store gains exactly the new created challenge |
| `Challenges.ChallengeStore.Consume` | packages/state-machine/challengeStore.ts:111-138 | the store and the outcome are those of the consume step, the late-approval change included |
| `Challenges.ChallengeStore.Cancel` | packages/state-machine/challengeStore.ts:140-150 | the store and the outcome are those of the cancel step |
| `AirlockInvalidation.StepKeepsInv` | apps/issuer-simulator/airlockEngine.ts:284-636 | every call, throwing or not, keeps the whole relation between devices, tokens, requests, transactions, challenges and the spend ledger |
| `AirlockTheorems.ReachableInv` | apps/issuer-simulator/airlockEngine.ts:86-636 | every state of every run satisfies that relation, whatever the approvals and the clock |
| `AirlockTheorems.DailySpendConserved` | apps/issuer-simulator/airlockEngine.ts:526-542 | on every run the ledger equals, key for key, the reservations still held, has no zero entry and stays within the token's daily cap |
| `AirlockCalls.ReleaseIsCovered` | apps/issuer-simulator/airlockEngine.ts:655-662 | what a release takes off the ledger is there in full: the clamp at zero never fires |
| `AirlockTheorems.CapTestSurvivesRounding` | apps/issuer-simulator/airlockEngine.ts:418-436 | with a cap of at most half the largest safe integer the cap tests are exact, and the new total is, under every rounding of sums that is monotone and exact on safe integers |
| `AirlockTheorems.CapBoundIsExact` | apps/issuer-simulator/airlockEngine.ts:418-423 | for doubles that bound is exact: every admitted payment is within the caps and leaves an exact total exactly when the cap is within it |
| `AirlockTheorems.RoundingNeedsTheBound` | apps/issuer-simulator/airlockEngine.ts:531-537 | with the next larger cap, two payments spend the daily cap in full and doubles then admit one unit more, leaving the ledger as it was |
| `AirlockRuns.DeviceCallIsInvalidation` | apps/issuer-simulator/airlockEngine.ts:316-408 | revoke, compromise and rotate throw with the engine unchanged, or invalidate the device's outstanding challenges and rewrite that device alone |
| `AirlockTheorems.LockdownClears` | apps/issuer-simulator/airlockEngine.ts:316-408 | when they do not throw, no pending aggregate and no created challenge of the device is left, and its pending reservations are off the ledger |
| `AirlockTheorems.RevokedForever` | apps/issuer-simulator/airlockEngine.ts:316-365 | after a call of a run that revoked a device or marked it compromised, nothing on the device is ever pending again, nor approved or confirmed that was not before |
| `AirlockInvalidation.ReducedIsExact` | apps/issuer-simulator/airlockEngine.ts:664-718 | declining a set of transactions leaves exactly the reservations of the others on the ledger |
| `AirlockInvalidation.ReconciledKeepsInv` | apps/issuer-simulator/airlockEngine.ts:664-718 | the all-at-once invalidation keeps the relation |
| `AirlockRuns.StepKeepsLifecycle` | apps/issuer-simulator/airlockEngine.ts:462-636 | with own approvals every call keeps aggregate states and challenge statuses in step |
| `AirlockTheorems.ReachableLifecycle` | apps/issuer-simulator/airlockEngine.ts:86-636 | and so they are in every state of every such run |
| `AirlockHistory.StepAdvances` | apps/issuer-simulator/airlockEngine.ts:581-636 | in every call each challenge leaves created at most once and each transaction keeps or lowers its rank |
| `AirlockHistory.RunAdvances` | apps/issuer-simulator/airlockEngine.ts:581-636 | over any run a terminal challenge never changes and no transaction returns to a state it left |
| `AirlockHistory.SettledWasConsumed` | apps/issuer-simulator/airlockEngine.ts:581-602 | a confirmed or settled transaction was confirmed by a call with exactly its binding, before expiry, properly signed |
| `AirlockHistory.ExceptionWasReversed` | apps/issuer-simulator/airlockEngine.ts:604-636 | a reversed or exceptional transaction was reversed by a timeout that cancelled its own challenge |
| `AirlockHistory.SettledXorException` | apps/issuer-simulator/airlockEngine.ts:619-636 | a transaction never shows both a settlement and an exception in one run |
| `AirlockHistory.FinishedMeansConsumed` | apps/issuer-simulator/airlockEngine.ts:619-636 | settled means its challenge is confirmed before expiry with the stored binding, exception means it is cancelled |
| `AirlockHistory.SuccessIsRecordedOnce` | apps/issuer-simulator/airlockEngine.ts:284-636 | every call that succeeds records exactly one audit entry, about its own aggregate, and a call that throws records none |
| `AirlockHistory.AuditListsSuccesses` | apps/issuer-simulator/airlockEngine.ts:284-636 | over any run the audit lists exactly the successful calls, in order |
| `AirlockRestore.RestoreExactly` | apps/issuer-simulator/airlockEngine.ts:100-282 | a snapshot restores to an equal engine exactly when no pending aggregate is stuck on an expired challenge and none was consumed before issuance |
| `AirlockRestoreRuns.SnapshotRoundTrip` | apps/issuer-simulator/airlockEngine.ts:100-282 | for every run with a forward clock and own approvals the round trip succeeds exactly when no pending aggregate points at a challenge marked expired |
| `AirlockStuck.StepStuckIff` | packages/state-machine/challengeStore.ts:111-138 | a call leaves a pending aggregate on an expired challenge exactly when it approves it late, or found it so and does not take back its device's challenges |
| `AirlockStuck.RunStuckIff` | apps/issuer-simulator/airlockEngine.ts:664-718 | over a run an aggregate is left so exactly when some call approved it late and no later call revoked, marked compromised or rotated its device |
| `AirlockStuck.RestoresIff` | apps/issuer-simulator/airlockEngine.ts:100-282 | the snapshot of such a run restores to an equal engine exactly when each late approval was followed by such a call |
| `AirlockRestoreRuns.ForwardClockConsumesLate` | packages/state-machine/challengeStore.ts:111-150 | with a forward clock no challenge is consumed before its issuance |
| `AirlockRestoreRuns.LateApprovalSticks` | apps/issuer-simulator/airlockEngine.ts:462-498 | a concrete run in which a late approval leaves a snapshot that restore refuses |
| `AirlockRestoreRuns.ForeignApprovalBreaksRestore` | apps/issuer-simulator/airlockEngine.ts:747-806 | a concrete run in which an approval of another aggregate's challenge leaves such a snapshot |
| `AirlockEngine.RestoreState` | apps/issuer-simulator/airlockEngine.ts:100-266 | the restoring loops accept exactly the restorable snapshots and rebuild their state |
| `AirlockEngine.RestoreDevices` | apps/issuer-simulator/airlockEngine.ts:116-135 | devices are accepted exactly when ids, key ids and key fingerprints are unique and valid |
| `AirlockEngine.SumReservations` | apps/issuer-simulator/airlockEngine.ts:243-256 | the loop totals exactly the reservations the listed transactions hold |
| `AirlockEngine.AssertKeyIdAvailable` | apps/issuer-simulator/airlockEngine.ts:720-729 | refuses an invalid key id and one another device has |
| `AirlockEngine.AssertPublicKeyAvailable` | apps/issuer-simulator/airlockEngine.ts:731-745 | refuses a public key whose fingerprint another device has |
| `AirlockEngine.AirlockEngine.Restore` | apps/issuer-simulator/airlockEngine.ts:100-266 | succeeds exactly on restorable snapshots, with their state |
| `AirlockEngine.AirlockEngine.Snapshot` | apps/issuer-simulator/airlockEngine.ts:268-282 | lists every map and the audit of the engine |
| `AirlockEngine.AirlockEngine.InvalidateOutstandingChallenges` | apps/issuer-simulator/airlockEngine.ts:664-718 | the two-phase loops equal the all-at-once invalidation, or throw and change nothing |
| `AirlockEngine.AirlockEngine.ReleaseCapReservation` | apps/issuer-simulator/airlockEngine.ts:655-662 | the ledger after giving one reservation back |
| `AirlockEngine.AirlockEngine.EnrollTrustedDevice` | apps/issuer-simulator/airlockEngine.ts:284-309 | new state and outcome of the enrolment |
| `AirlockEngine.AirlockEngine.RevokeTrustedDevice` | apps/issuer-simulator/airlockEngine.ts:316-336 | new state and outcome of the revocation |
| `AirlockEngine.AirlockEngine.MarkTrustedDeviceCompromised` | apps/issuer-simulator/airlockEngine.ts:338-365 | new state and outcome of the compromise call |
| `AirlockEngine.AirlockEngine.RotateTrustedDeviceKey` | apps/issuer-simulator/airlockEngine.ts:367-408 | new state and outcome of the rotation |
| `AirlockEngine.AirlockEngine.RequestProvisioning` | apps/issuer-simulator/airlockEngine.ts:410-460 | new state and outcome of the request |
| `AirlockEngine.AirlockEngine.ApproveProvisioning` | apps/issuer-simulator/airlockEngine.ts:462-498 | new state and outcome of the approval, a late one included |
| `AirlockEngine.AirlockEngine.Authorize` | apps/issuer-simulator/airlockEngine.ts:500-579 | new state and outcome of the authorization |
| `AirlockEngine.AirlockEngine.ConfirmTransaction` | apps/issuer-simulator/airlockEngine.ts:581-602 | new state and outcome of the confirmation, a late one included |
| `AirlockEngine.AirlockEngine.ExpireAndReverse` | apps/issuer-simulator/airlockEngine.ts:604-617 | new state and outcome of the timeout reversal |
| `AirlockEngine.AirlockEngine.ReceiveClearing` | apps/issuer-simulator/airlockEngine.ts:619-636 | new state and outcome of clearing |
| `AirlockEngine.AirlockEngine.Perform` | apps/issuer-simulator/airlockEngine.ts:284-636 | any public call computes its step and leaves an engine that satisfies the relation |
| `AirlockAnswers.EnrollIff` | apps/issuer-simulator/airlockEngine.ts:284-309 | an enrolment succeeds exactly for an unused device id, a valid unused key id and an accepted key that no device has, and adds that device, active |
| `AirlockAnswers.RevokeIff` | apps/issuer-simulator/airlockEngine.ts:316-365 | revoking and marking compromised succeed exactly for an active device none of whose open challenges comes from the future, and revoke it |
| `AirlockAnswers.RotateIff` | apps/issuer-simulator/airlockEngine.ts:367-408 | rotating succeeds exactly for such a device with another valid key id and another accepted key, unused by any device, which it then has |
| `AirlockAnswers.LockdownDeclines` | apps/issuer-simulator/airlockEngine.ts:664-718 | these calls decline exactly the device's pending requests and transactions whose challenge no foreign approval has confirmed, with their tokens, reservations and open challenges, and touch no others |
| `AirlockAnswers.ProvisionIff` | apps/issuer-simulator/airlockEngine.ts:410-460 | a request succeeds exactly for a new token, a cap within the bound and an active device of the subject; the pending token, its caps, the request and its two-minute challenge are spelled out |
| `AirlockAnswers.ApproveIff` | apps/issuer-simulator/airlockEngine.ts:462-498 | an approval succeeds exactly when a waiting request's active device approves its open challenge in time; request and token take the activation asked for, and only a full token loses its caps |
| `AirlockAnswers.AuthorizeIff` | apps/issuer-simulator/airlockEngine.ts:500-579 | an authorization succeeds exactly for an unused id, a positive safe amount, an active token, an active device of its subject and, if the token is capped, an amount within both caps; the transaction, its challenge and its reservation are spelled out |
| `AirlockAnswers.PerTransactionCapHolds` | apps/issuer-simulator/airlockEngine.ts:526-531 | in every state of every run each transaction of a capped token is within its cap per transaction |
| `AirlockAnswers.ConfirmIff` | apps/issuer-simulator/airlockEngine.ts:581-602 | a confirmation succeeds exactly when the pending transaction's active device approves its open challenge in time |
| `AirlockAnswers.ThrownApprovalLeaves` | packages/state-machine/challengeStore.ts:111-138 | a throwing approval writes exactly in two cases: a late one marks the challenge it names expired, and a proper one for an aggregate that is not waiting still confirms it |
| `AirlockAnswers.ExpireIff` | apps/issuer-simulator/airlockEngine.ts:604-617 | a timeout reversal succeeds exactly for a pending transaction whose challenge is open and issued by now, and takes exactly its reservation off the ledger |
| `AirlockAnswers.ClearIff` | apps/issuer-simulator/airlockEngine.ts:619-636 | clearing succeeds exactly for a confirmed transaction, which settles, and a reversed one, which becomes an exception |
| `AirlockAcceptance.AcceptsIff` | apps/issuer-simulator/airlockEngine.ts:100-266 | restore accepts a snapshot, whoever wrote it, exactly when it lists the records of an engine that meets the written-out conditions on challenges, devices, tokens, requests, transactions and ledger, each record once |
| `AirlockAcceptance.RestoredInvIff` | apps/issuer-simulator/airlockEngine.ts:100-266 | an accepted snapshot restores to an engine in the relation that every call keeps exactly when, besides what restore checks, it meets the listed conditions that restore takes on trust |
| `AirlockAcceptance.OverspentIsAccepted` | apps/issuer-simulator/airlockEngine.ts:221-264 | a concrete snapshot with 500 confirmed and reserved under a token capped at 1, which restore accepts |
| `AuditChain.SameTipHashSameEvidence` | packages/audit/auditLog.ts:381-393 | with a collision-free digest two verifying logs that share a tip hash agree in length, bodies and hashes |
| `AuditChain.SameTipSameEvents` | packages/audit/auditLog.ts:381-425 | with the tip's tag shared too and a collision-free MAC they are the same events, authentication included |
| `AuditChain.TipHashLeavesTagOpen` | packages/audit/auditLog.ts:303-324 | the tip hash alone does not fix the authentication: logs under two keyrings share it, and are equal only if key id, version and tag agree |
| `AuditChain.AddKeepsRing` | packages/audit/auditLog.ts:101-108 | adding a key keeps one active key, unique versions and the latest version active |
| `AuditChain.ActivateKeepsRing` | packages/audit/auditLog.ts:110-122 | activating keeps that too and raises the version by one exactly when it succeeds |
| `AuditChain.AppendVerifies` | packages/audit/auditLog.ts:278-324 | an appended event keeps the log verifying |
| `AuditChain.RunKeepsLog` | packages/audit/auditLog.ts:77-149 | after any interleaving of adding, activating and appending, refusals included, the log verifies, has only grown, and its fresh anchor is accepted |
| `AuditChain.AnchorHoldsIffQuiet` | packages/audit/auditLog.ts:337-379 | an anchor taken before a run is accepted after it exactly when nothing was appended and no key activated in between |
| `AuditChain.RestoreRoundTrip` | packages/audit/auditLog.ts:220-276 | after any run restoring the log's own snapshot against its fresh anchor gives the same events |
| `AuditChain.RestoreAdmitsOneList` | packages/audit/auditLog.ts:220-276 | against the anchor of a verifying log restore accepts that log's events and no others, under any keyring |
| `AuditLog.InMemoryAuditKeyring.Provision` | packages/audit/auditLog.ts:86-99 | the keyring is built exactly when the keys are valid and distinct and the active one is among them |
| `AuditLog.InMemoryAuditKeyring.Add` | packages/audit/auditLog.ts:101-108 | new keyring and outcome of adding |
| `AuditLog.InMemoryAuditKeyring.Activate` | packages/audit/auditLog.ts:110-122 | new keyring and outcome of activating |
| `AuditLog.AuditLog.Append` | packages/audit/auditLog.ts:278-324 | the events after an append, with and without a key provider |
| `AuditLog.AuditLog.Verify` | packages/audit/auditLog.ts:381-426 | the loop accepts exactly the logs in which every event is linked and authenticated |
| `AuditLog.AuditLog.TrustAnchor` | packages/audit/auditLog.ts:337-358 | the anchor of the events and the active key |
| `AuditLog.AuditLog.VerifyTrustAnchor` | packages/audit/auditLog.ts:360-379 | accepts exactly the current anchor |
| `AuditLog.AuditLog.Restore` | packages/audit/auditLog.ts:220-276 | the restoring loop gives the listed events, or the first reason to refuse them |
| `AuditChain.AppendRecords` | packages/audit/auditLog.ts:278-324 | appending succeeds exactly at a valid date and adds one event, numbered, linked and hashed, that says what the entry says, payload included, tagged under the active key after the tag before it |
| `AuditChain.RunRecordsEntries` | packages/audit/auditLog.ts:278-301 | over any run the log gains exactly one event for each successful append, in order, that says what that append was given |
| `AuditChain.VerifiedIff` | packages/audit/auditLog.ts:381-426 | a log with keys verifies exactly when each event names the hash before it, hashes to its own and bears a tag of a known key, with key versions that never fall, over the tag before it |
| `AuditChain.KeysChangeIff` | packages/audit/auditLog.ts:101-122 | exactly when a key is added or activated, and which records then change |
| `AuditChain.AnchorHoldsIff` | packages/audit/auditLog.ts:360-379 | an anchor is accepted exactly when it counts the events and names the last one's hash, tag, key and version and the active key and its version |
| `AuditChain.RestoresIff` | packages/audit/auditLog.ts:220-276 | restoring succeeds exactly for the schema that goes with having keys, numbered and dated events that verify, and an anchor that holds |
| `RemoteAuditTheorems.PublishedAnchorIsKnown` | packages/audit/remoteAudit.ts:278-413 | on every run, with a crash possible at every await, the published anchor is that of the committed snapshot or that of the pending record, never both and never another |
| `RemoteAuditTheorems.OnlyCurrentHandlesPublish` | packages/audit/remoteAudit.ts:348-413 | one move publishes at most one event, and only for a handle whose view of both stores is current |
| `RemoteAuditTheorems.LaterOpensExtend` | packages/audit/remoteAudit.ts:278-333 | of two opens that succeed in a run the later shows all events the earlier showed, in the same order, and no event twice |
| `RemoteAuditTheorems.ReturnedIsShown` | packages/audit/remoteAudit.ts:398-413 | an event an append returned is shown by every later open that succeeds |
| `RemoteAuditTheorems.OpenShowsHistory` | packages/audit/remoteAudit.ts:278-333 | a successful open shows exactly the published events, with nothing pending |
| `RemoteAuditTheorems.OpenRecovers` | packages/audit/remoteAudit.ts:278-333 | from every reachable world with nobody appending, an undisturbed open succeeds, rolling forward or back |
| `RemoteAuditTheorems.AppendCompletes` | packages/audit/remoteAudit.ts:335-413 | an undisturbed append on a current handle publishes and commits its event and leaves the handle current |
| `RemoteAuditTheorems.PublishMustNotThrowLate` | packages/audit/remoteAudit.ts:400-408 | if a publish could throw after its effect the abort would leave a log that no open accepts |
| `RemoteAuditTheorems.OpenMustWaitForAppends` | packages/audit/remoteAudit.ts:287-292 | if a log were opened during an append's publish it would be left in the same way |
| `RemoteAuditInvariant.NextKeepsInv` | packages/audit/remoteAudit.ts:278-413 | every allowed move keeps the relation between journal, publisher and processes |
| `RemoteAuditInvariant.ResolveStores` | packages/audit/remoteAudit.ts:287-295 | resolving commits exactly a record that was published and aborts exactly one that was not |
| `RemoteAuditInvariant.SignedIsNextRecord` | packages/audit/remoteAudit.ts:354-397 | what an append signs is one verified event ahead of the view it was computed from |
| `RemoteAuditInvariant.CheckingAccepts` | packages/audit/remoteAudit.ts:311-325 | the check that ends an open always passes, and the snapshot it passes is the history |
| `RemoteAuditLog.StateStore.PrepareRecord` | packages/audit/remoteAudit.ts:68-77 | the compare-and-swap of prepare, with a fault before or after its effect |
| `RemoteAuditLog.StateStore.CommitRecord` | packages/audit/remoteAudit.ts:68-77 | the guarded commit, with a fault before or after its effect |
| `RemoteAuditLog.StateStore.AbortRecord` | packages/audit/remoteAudit.ts:68-77 | the guarded abort, with a fault before or after its effect |
| `RemoteAuditLog.AnchorPublisher.PublishAnchor` | packages/audit/remoteAudit.ts:39-52 | the compare-and-swap of publish |
| `RemoteAuditLog.VerifySnapshot` | packages/audit/remoteAudit.ts:184-252 | the loop accepts exactly the snapshots that are well shaped, linked and authenticated |
| `RemoteAuditLog.Open` | packages/audit/remoteAudit.ts:278-333 | with any faults the method makes exactly the moves of an open |
| `RemoteAuditLog.AsyncRemoteAuditLog.AppendEntry` | packages/audit/remoteAudit.ts:335-413 | with any faults the method makes exactly the moves of an append, and returns the event it published |
| `RemoteAuditLog.AsyncRemoteAuditLog.CommitPending` | packages/audit/remoteAudit.ts:398-413 | the moves from prepare on |
| `RemoteAuditTheorems.ReturnedCarriesEntry` | packages/audit/remoteAudit.ts:335-413 | an event that an append returns says what the entry says that this append was given when it began |
| `RemoteAuditTheorems.PublishedWasAsked` | packages/audit/remoteAudit.ts:398-413 | every event ever published, and so every event an opened log shows, says what the entry of some append of the run says |
| `RemoteAuditTheorems.AppendStartsIff` | packages/audit/remoteAudit.ts:335-376 | an append starts exactly for a complete entry with a valid date under a well-formed active key that is not older than the last event's |
| `RemoteAuditTheorems.ErrorsEnd` | packages/audit/remoteAudit.ts:278-413 | a call that throws ends an open and leaves an append idle under the view it had, except that an error of publish has it abort first; thrown before its effect it writes nothing |
| `RemoteAuditTheorems.OpenAcceptsIff` | packages/audit/remoteAudit.ts:311-325 | the last check of an open, on whatever it loaded, with every condition on anchor, key and events written out |
| `OperationsInvariant.StepKeepsOk` | packages/customer-operations/operationsStateMachine.ts:263-525 | every call, failures and replays included, keeps cases, overrides, audit, intents and cache in agreement |
| `OperationsInvariant.RunKeepsOk` | packages/customer-operations/operationsStateMachine.ts:263-525 | and so does every run |
| `OperationsInvariant.CaseMoveKeepsOk` | packages/customer-operations/operationsStateMachine.ts:344-366 | a case that moves keeps its state equal to the fold of its events |
| `OperationsInvariant.RequestedKeepsOk` | packages/customer-operations/operationsStateMachine.ts:427-455 | a requested reset agrees with its single request event |
| `OperationsInvariant.OverrideMoveKeepsOk` | packages/customer-operations/operationsStateMachine.ts:485-523 | approving, executing or expiring an override keeps it in agreement with its events |
| `OperationsTheorems.SnapshotPassesIff` | packages/customer-operations/operationsStateMachine.ts:218-261 | a snapshot restores to the same machine, and passes every check exactly when no case is pending without override |
| `OperationsTheorems.StepStrandsIff` | packages/customer-operations/operationsStateMachine.ts:427-452 | a call leaves such a case exactly when it is a reset request that passes every check and would expire after the last representable instant |
| `OperationsTheorems.RunRestorableIff` | packages/customer-operations/operationsStateMachine.ts:218-261 | along a run, with tenant ids that hold no colon, every snapshot passes restore exactly when no call of the run is such a request |
| `OperationsKeys.SameTextIff` | packages/customer-operations/operationsStateMachine.ts:617-619 | two pairs share a `tenant:id` text exactly when they are equal or one is the other with a piece moved over a colon |
| `OperationsKeys.TextStepIsStep` | packages/customer-operations/operationsStateMachine.ts:263-525 | a call of a tenant without colon gives on maps keyed by texts the reply and the records it gives on maps keyed by pairs |
| `OperationsKeys.TextRunIsRun` | packages/customer-operations/operationsStateMachine.ts:263-525 | and so does every run whose tenants hold no colon |
| `OperationsKeys.CollisionCrossesTenants` | packages/customer-operations/operationsStateMachine.ts:428-451 | a concrete run in which a request of one tenant moves a case of another and stores an override whose case restoring does not find |
| `OperationsTheorems.EarlyCallsStrandNothing` | packages/customer-operations/operationsStateMachine.ts:400-456 | calls made a day or more before that instant are never such requests |
| `OperationsTheorems.LastHourStrands` | packages/customer-operations/operationsStateMachine.ts:427-452 | a concrete run of three calls after which the snapshot does not pass restore |
| `OperationsTheorems.ReplayHasNoEffect` | packages/customer-operations/operationsStateMachine.ts:585-615 | replaying a call under its key, a cached failure included, has no effect and gives the first reply, whatever ran in between |
| `OperationsTheorems.ResolvedOnlyThroughOverride` | packages/customer-operations/operationsStateMachine.ts:458-525 | a case that enters a pending reset is resolved only through its single override, with two approvals of distinct approvers, each from a call not made on the subject's device |
| `OperationsTheorems.ApprovalsHaveCalls` | packages/customer-operations/operationsStateMachine.ts:458-525 | every approval of a reached machine was added by its own call of the run |
| `OperationsTheorems.TerminalStays` | packages/customer-operations/operationsStateMachine.ts:617-638 | a finished case never changes again |
| `OperationsTheorems.PendingStep` | packages/customer-operations/operationsStateMachine.ts:342-352 | from a pending reset a case stays, expires, or is resolved with an override |
| `OperationsMachine.CustomerOperationsStateMachine.OpenCase` | packages/customer-operations/operationsStateMachine.ts:263-321 | new machine and reply of the call |
| `OperationsMachine.CustomerOperationsStateMachine.Transition` | packages/customer-operations/operationsStateMachine.ts:323-398 | new machine and reply of a transition or a recovery proof |
| `OperationsMachine.CustomerOperationsStateMachine.RequestTrustReset` | packages/customer-operations/operationsStateMachine.ts:400-456 | new machine and reply of the call, the branch that throws half-way included |
| `OperationsMachine.CustomerOperationsStateMachine.ApproveTrustReset` | packages/customer-operations/operationsStateMachine.ts:458-525 | new machine and reply of the call |
| `OperationsMachine.CustomerOperationsStateMachine.FindActive` | packages/customer-operations/operationsStateMachine.ts:617-638 | the case is found active, or expired in place, or refused |
| `OperationsMachine.CustomerOperationsStateMachine.VerifyAudit` | packages/customer-operations/operationsStateMachine.ts:549-561 | the loop accepts exactly an intact chain |
| `OperationsMachine.CustomerOperationsStateMachine.TakeSnapshot` | packages/customer-operations/operationsStateMachine.ts:563-583 | lists the maps, audit and intents of the machine |
| `OperationsMachine.ValidateState` | packages/customer-operations/operationsStateMachine.ts:702-795 | the validating loops accept exactly the cases, overrides and intents that agree with the events |
| `OperationsMachine.ValidCase` | packages/customer-operations/operationsStateMachine.ts:704-744 | a case is accepted exactly when its state is the fold of its events |
| `OperationsMachine.ValidOverride` | packages/customer-operations/operationsStateMachine.ts:746-787 | an override is accepted exactly when it agrees with its events |
| `OperationsMachine.Restore` | packages/customer-operations/operationsStateMachine.ts:218-261 | succeeds exactly on restorable snapshots, with their machine |
| `OperationsAnswers.OpenIff` | packages/customer-operations/operationsStateMachine.ts:263-321 | under an unused key opening succeeds exactly for an actor of the tenant and well-formed subject, reason, lifetime and unused id; case, event and notification are spelled out |
| `OperationsAnswers.TransitionIff` | packages/customer-operations/operationsStateMachine.ts:323-366 | a transition succeeds exactly on a running case, along a row of the table written out as pairs, by a role written out as sets, and not where dual control alone may move |
| `OperationsAnswers.ProofIff` | packages/customer-operations/operationsStateMachine.ts:368-398 | a recovery proof succeeds exactly as such a transition of an account recovery case by one of the three strong methods, which its reason names |
| `OperationsAnswers.RequestIff` | packages/customer-operations/operationsStateMachine.ts:400-456 | a trust reset request succeeds exactly for an approver, a window of a minute to a day and a running case ready for it; the override waits without approvals |
| `OperationsAnswers.ApproveIff` | packages/customer-operations/operationsStateMachine.ts:458-525 | an approval succeeds exactly while override and case are open, for an approver who has not approved it and is not on the affected device; the second one executes the override and resolves the case |
| `OperationsAnswers.MovesWereAllowed` | packages/customer-operations/operationsStateMachine.ts:126-173 | over every run each move of a case but opening and expiry was made by a role for it, along a row of the table from the state its earlier events lead to |
| `OperationsAnswers.FailuresChange` | packages/customer-operations/operationsStateMachine.ts:585-638 | a call that fails writes nothing but its cached failure, except to expire a case, to lapse an override, or to leave the one pending case |
| `OperationsAnswers.PrecheckIff` | packages/customer-operations/operationsStateMachine.ts:368-398 | which calls fail before the cache is looked at, and that they write nothing |
| `OperationsAnswers.UsedKeyIff` | packages/customer-operations/operationsStateMachine.ts:592-601 | a used key is answered with its cached reply exactly when the request hashes to what is cached, and refused otherwise; nothing changes |
| `OperationsAnswers.ReasonIff` | packages/customer-operations/operationsStateMachine.ts:192-199 | a reason is a text of 3 to 512 characters that trimming leaves as it is |
| `OperationsAnswers.CachesReply` | packages/customer-operations/operationsStateMachine.ts:585-615 | every first call leaves its reply, a failure included, under its key and request hash |
| `OperationsAcceptance.AcceptsIff` | packages/customer-operations/operationsStateMachine.ts:218-261 | restore accepts a snapshot, whoever wrote it, exactly when it lists the records of a machine whose chain links, whose cases are where their last state event puts them and whose overrides match their request, approval, execution and expiry events |
| `Unicode.ScanIsTotality` | packages/protocol/canonical.ts:35-48 | the surrogate scan accepts exactly the strings whose UTF-16 decoding is total, and those whose code points are no surrogates |
| `Unicode.EncodeDecode` | packages/protocol/canonical.ts:35-48 | decoding UTF-16 is one-to-one |
| `Unicode.Utf8Inverse` | packages/protocol/canonical.ts:120-120 | encoding code points as UTF-8 is one-to-one |
| `CanonicalTheorems.EscapeCommutes` | packages/protocol/python_reference_verifier.py:112-118 | escaping code units and decoding is decoding and escaping code points |
| `CanonicalTheorems.SameBytes` | packages/protocol/python_reference_verifier.py:105-118 | on every binding both implementations accept they give the same bytes |
| `CanonicalTheorems.SameAcceptance` | packages/protocol/python_reference_verifier.py:52-102 | with readers that agree on timestamps both accept the same bindings |
| `CanonicalTheorems.SameAnswer` | packages/protocol/python_reference_verifier.py:52-118 | so both give every binding one answer: the same bytes, or a refusal by both |
| `CanonicalTheorems.ParserRecovers` | packages/protocol/canonical.ts:113-121 | parsing the bytes of a valid binding gives exactly its fields in the fixed order |
| `CanonicalTheorems.BytesDetermineBinding` | packages/protocol/canonical.ts:113-121 | two valid bindings with the same bytes have the same fields |
| `CanonicalTheorems.KeyOrderIgnored` | packages/protocol/canonical.ts:113-121 | key order changes neither acceptance nor bytes |
| `CanonicalTheorems.ContainsUnpairedSurrogate` | packages/protocol/canonical.ts:35-48 | the index loop finds exactly the strings that are not well formed |
| `CanonicalTheorems.CanonicalizeBinding` | packages/protocol/canonical.ts:113-121 | the loop over the fixed order computes the canonical bytes, or refuses |
| `CanonicalText.AcceptedIff` | packages/protocol/canonical.ts:50-111 | a binding is accepted exactly with the common fields, the fixed version and audience, a window that opens before it closes, either the four transaction fields or none of them, and no other field |
| `CanonicalText.TransactionText` | packages/protocol/canonical.ts:3-18 | a transaction's bytes are an object of its fourteen named fields, each at its written-out place |
| `CanonicalText.ProvisioningText` | packages/protocol/canonical.ts:3-18 | a provisioning request's bytes are an object of its ten named fields, each at its written-out place |
| `CanonicalText.ShortEscapes` | packages/protocol/python_reference_verifier.py:112-118 | quote, backslash and five control characters are escaped by a letter |
| `CanonicalText.OtherEscapes` | packages/protocol/python_reference_verifier.py:112-118 | the other control characters are escaped by two lower-case hexadecimal digits and nothing else is escaped |
| `CanonicalText.AmountNumeral` | packages/protocol/python_reference_verifier.py:112-118 | an amount is printed as its decimal numeral without leading zero |
| `DurableStore.OneSwapPerVersion` | packages/storage/durableStore.ts:189-217 | of two swaps that expect one version of a row only the first can succeed, whatever commits in between |
| `DurableStore.RunOnceIsAtomic` | packages/storage/durableStore.ts:219-246 | an idempotent run changes nothing when it replays, is refused or fails, whatever its operation wrote before failing, and otherwise does all of it and records its response; it fails exactly for a key used otherwise or a failing first use |
| `DurableStore.HalfDoneIsUndone` | packages/storage/durableStore.ts:154-168 | an operation that wrote one row before its swap failed leaves no row and no record, and its key can be used again |
| `DurableStore.LaterRunsReplay` | packages/storage/durableStore.ts:219-246 | once a run succeeded under a key, every later run with the same request replays its response and changes nothing |
| `DurableStore.InsertedIff` | packages/storage/durableStore.ts:170-182 | a row is created exactly under an unused id, at version zero, and nothing else changes |
| `DurableStore.SwappedIff` | packages/storage/durableStore.ts:189-217 | a swap succeeds exactly on a row of the expected version and status, which moves to the next version, and nothing else changes |
| `DurableStore.Store.Create` | packages/storage/durableStore.ts:170-182 | one new row at version zero, or a refusal |
| `DurableStore.Store.CompareAndSwap` | packages/storage/durableStore.ts:189-217 | one row moves to the next version, or nothing changes |
| `DurableStore.Store.GetIdempotent` | packages/storage/durableStore.ts:248-263 | the stored response, none, or a refusal of another request |
| `DurableStore.Store.RunIdempotent` | packages/storage/durableStore.ts:154-168 | writes made in place, also those of an operation that then throws, are rolled back in full on an error |
| `DurableStore.Store.Enqueue` | packages/storage/durableStore.ts:265-314 | one new event, or a refusal |
| `DurableStore.Store.SelectClaimable` | packages/storage/durableStore.ts:333-341 | the first claimable rows by creation time and id, up to the limit |
| `DurableStore.Store.ClaimOutbox` | packages/storage/durableStore.ts:316-362 | the claim leases exactly the rows its query selects and returns them as they are then |
| `Outbox.OneSelection` | packages/storage/durableStore.ts:333-341 | the claim query has exactly one answer |
| `DurableStore.Store.AcknowledgeOutbox` | packages/storage/durableStore.ts:364-381 | delivered exactly for the holder of a running lease |
| `DurableStore.Store.ReleaseOutbox` | packages/storage/durableStore.ts:383-405 | released exactly for the holder of a running lease |
| `LabPersistence.CommittedVersionsFormOneChain` | apps/realtime-lab/server.ts:1199-1267 | for any servers, interleaving, crash or database error, committed versions form one chain, each one run on exactly the version before, each key at most one link |
| `LabPersistence.RepliesAreTheStoredOnes` | apps/realtime-lab/server.ts:1540-1560 | every stored reply a client gets, first or replayed, is the one stored with the single link of its key |
| `LabPersistence.StaleServersNeverCommit` | apps/realtime-lab/server.ts:1213-1238 | only a server holding the latest version commits |
| `LabPersistence.IdleServersHoldAVersion` | apps/realtime-lab/server.ts:1885-1940 | a server that has answered holds the state of a committed version, refusals and rollbacks included |
| `LabPersistence.NextKeepsInv` | apps/realtime-lab/server.ts:1116-1146 | every move keeps the relation between database, chain and servers, and never rewrites a link |
| `LabPersistence.RepeatIsAnswered` | apps/realtime-lab/server.ts:1536-1560 | a request that repeats a committed one on an idle server is answered with the stored reply, or with a conflict when its body differs, and changes nothing |
| `LabPersistence.FirstRequestCommits` | apps/realtime-lab/server.ts:1199-1238 | a new request on a server at the latest version, undisturbed, runs its handler on that version's state, commits one link and is answered with the reply stored with it |
| `LabPersistence.StaleRequestRefreshes` | apps/realtime-lab/server.ts:1213-1267 | a new request on a server behind the latest version commits nothing, is answered with a conflict and leaves its server at the latest version |
| `LabPersistence.OvertakenIsReplayed` | apps/realtime-lab/server.ts:1239-1267 | a request whose key was committed between its lookup and its transaction is answered with that reply, or with a conflict |
| `LabPersistence.FailedCommitRefreshes` | apps/realtime-lab/server.ts:1239-1267 | a transaction that fails otherwise is answered as unavailable, with nothing committed and the server at the latest version |
| `LabPersistence.DoubleFaultRefuses` | apps/realtime-lab/server.ts:1885-1940 | when the lookup, or the transaction and the reload, fail, the refusal is what the next transaction commits, and failing twice more ends the server |
| `LabPersistence.FailedReload` | apps/realtime-lab/server.ts:1239-1267 | a reload that fails answers nobody; after a replay it is tried once more, otherwise the server rolls back and commits the refusal, or ends |
| `LabPersistence.StartingHolds` | apps/realtime-lab/server.ts:1116-1146 | a server that starts creates version zero or holds the latest version at once |
| `LabServer.SwapSeen` | apps/realtime-lab/server.ts:1215-1230 | the transaction replays, refuses, or swaps the snapshot and records the reply together |
| `LabServer.Server.HandlePost` | apps/realtime-lab/server.ts:1520-1572 | lookup, which may fail, handler, commit and the refusal after an error make exactly the moves of the model on the shared database |
| `LabServer.Server.PersistResponse` | apps/realtime-lab/server.ts:1199-1267 | the transaction and the reloads after it make exactly those moves |
| `Timestamps.TextOrderIsStoredOrder` | packages/storage/durableStore.ts:333-343 | for every instant a Date can hold, stored texts sort with years from 10000 on first, then years before 0 backwards, then the four-digit years, and by time inside each |
| `Timestamps.FieldsOfInstant` | packages/storage/durableStore.ts:322-324 | every instant of a Date has fields in the calendar, and they stand for that instant |
| `Timestamps.InstantOfFields` | packages/storage/durableStore.ts:322-324 | and no other fields do, so an instant and its text determine each other |
| `Timestamps.SameBandOrder` | packages/storage/durableStore.ts:333-343 | within the four-digit years and from year 10000 on text order is time order; before year 0 later years sort first |
| `Timestamps.BandsInOrder` | packages/storage/durableStore.ts:333-343 | texts of expanded years sort before every four-digit year, those with a plus sign first |
| `Outbox.LeasesNeverOverlap` | packages/storage/durableStore.ts:316-405 | over all interleavings of workers with any clocks, leases that end where texts sort by time never overlap without a release between them, nothing follows a delivery, and attempts count claims |
| `Outbox.OverlapsIff` | packages/storage/durableStore.ts:333-351 | that condition is exact: some clock reading before the end of a lease finds its event claimable exactly when the lease ends elsewhere |
| `Outbox.OnlyTheHolderEnds` | packages/storage/durableStore.ts:364-405 | acknowledging and releasing succeed exactly for the holder of a running lease, the event's last open claim |
| `Outbox.LeaseProtectsIff` | packages/storage/durableStore.ts:333-343 | a leased event can be claimed again at once exactly when the lease runs into year 10000 or crosses into another year before year 0 |
| `Outbox.LeaseAcrossNegativeYears` | packages/storage/durableStore.ts:333-343 | a concrete lease of one second before year 0 that protects nothing |
| `Outbox.StepKeepsInv` | packages/storage/durableStore.ts:265-405 | every operation keeps rows and claim record in agreement |
| `OutboxAnswers.EnqueuedIff` | packages/storage/durableStore.ts:265-314 | an event is enqueued exactly under bounded, non-blank texts, at a valid time, with at most a mebibyte and an unused id and key; it is then due at once |
| `OutboxAnswers.ClaimAdmittedIff` | packages/storage/durableStore.ts:316-332 | a claim is admitted exactly for a bounded worker, one to a thousand events and a lease of a second or more between valid times |
| `OutboxAnswers.PassedOverIsLater` | packages/storage/durableStore.ts:333-341 | a claimable event that a claim passes over is later by creation time and id than every event taken, and the claim is full |
| `OutboxAnswers.AcknowledgedIff` | packages/storage/durableStore.ts:364-381 | an acknowledgement succeeds exactly while the worker's lease runs, and marks the event delivered now |
| `OutboxAnswers.ReleasedIff` | packages/storage/durableStore.ts:383-405 | a release succeeds exactly while the worker's lease runs, and leaves the event due at the retry time |
| `OutboxAnswers.RowsComeFromEnqueues` | packages/storage/durableStore.ts:265-405 | in any run of any workers every row says what one enqueue of the run said, and no two rows share a key |
| `Dispatcher.OneOutcomePerEvent` | packages/partner-transport/dispatcher.ts:216-314 | a pass gives one outcome for each claimed event, in order |
| `Dispatcher.AcknowledgedOnlyWhenEarned` | packages/partner-transport/dispatcher.ts:250-283 | an acknowledgement succeeds only after a 2xx reply or a recorded dead letter for the event |
| `Dispatcher.NothingSentWhileOpen` | packages/partner-transport/dispatcher.ts:219-248 | nothing is sent before the instant the circuit is open until |
| `Dispatcher.RetryIffNotAcknowledged` | packages/partner-transport/dispatcher.ts:285-312 | a turn ends in a retry exactly when nothing acknowledged the event, and then the event was given back |
| `Dispatcher.PassSettles` | packages/partner-transport/dispatcher.ts:216-314 | whatever fails, an event whose outcome is a retry is left undelivered and claimable, from its retry time on or once its lease has ended; every other event is left delivered |
| `Dispatcher.TableFollowsRowLeft` | packages/storage/durableStore.ts:364-405 | while no one else changes the event's row, each lease call of the pass succeeds exactly under a running lease and leaves in the table the row the pass accounts for |
| `Dispatcher.PassLeavesTable` | packages/partner-transport/dispatcher.ts:216-314 | and so the row the table holds after the pass is that row |
| `Dispatcher.BuriedForAReason` | packages/partner-transport/dispatcher.ts:255-292 | dead letters are written only for permanent replies or exhausted budgets |
| `Dispatcher.PartnerOutboxDispatcher.RecordFailure` | packages/partner-transport/dispatcher.ts:148-158 | the breaker after one more failure |
| `Dispatcher.DeadLetteredIffBuried` | packages/partner-transport/dispatcher.ts:160-179 | a turn ends dead-lettered exactly when the dead letter was recorded and the event acknowledged right after |
| `Dispatcher.PartnerOutboxDispatcher.DispatchOnce` | packages/partner-transport/dispatcher.ts:181-315 | the policy is checked, the events are claimed from the store, and the loop computes the pass: breaker, effects, outcomes and the table its lease calls leave |
| `DispatcherAnswers.TurnAnswers` | packages/partner-transport/dispatcher.ts:216-314 | a turn delivers exactly on a 2xx reply under a running lease, dead-letters exactly on a permanent reply or a spent budget that is recorded under one, and reports the partner's status exactly when nothing threw |
| `DispatcherAnswers.SendsIff` | packages/partner-transport/dispatcher.ts:218-247 | a turn sends exactly when the circuit is not open and the event can be sent, first and only once |
| `DispatcherAnswers.RetryComesBack` | packages/partner-transport/dispatcher.ts:219-232 | a retried event is given back for when the circuit closes, or the retry delay after the reply or the error |
| `DispatcherAnswers.TurnCounts` | packages/partner-transport/dispatcher.ts:249-289 | 2xx resets the count of failures, an overloaded partner adds one and whatever throws adds one more |
| `DispatcherAnswers.CircuitCountsFailures` | packages/partner-transport/dispatcher.ts:148-158 | over a pass the breaker counts exactly the failures since the last 2xx reply; the circuit opens for the cooldown right after a failure exactly when that count has reached the threshold, and closes exactly after 2xx |
| `DispatcherAnswers.RunsIff` | packages/partner-transport/dispatcher.ts:181-215 | a pass starts exactly under the written-out policy bounds and a claim the store admits |
| `CapLedger.RunKeepsLedger` | packages/storage/postgresMigrations.ts:52-74 | after any calls every daily row equals the sum of the active reservations of its tenant, token and day and lies between zero and the cap |
| `CapLedger.AdmittedIffRoom` | packages/storage/postgresStore.ts:601-622 | a new reservation is admitted exactly when the cap is the one set and the active total leaves room |
| `CapLedger.ReserveRepeatsToNothing` | packages/storage/postgresStore.ts:575-600 | repeating an admitted reserve changes nothing, whatever ran in between, and reports the status by then |
| `CapLedger.ReleasedStaysReleased` | packages/storage/postgresStore.ts:659-701 | a released id stays released: no later call reserves or changes it |
| `CapLedger.PostgresCapStore.ReserveCap` | packages/storage/postgresStore.ts:535-649 | new rows and result of a reserve |
| `CapLedger.PostgresCapStore.ReleaseCap` | packages/storage/postgresStore.ts:651-702 | new rows and result of a release |
| `CapLedger.ReserveRecords` | packages/storage/postgresStore.ts:601-649 | an admitted reservation is recorded as asked and raises its row's total by its amount; nothing else changes |
| `CapLedger.ReserveError` | packages/storage/postgresStore.ts:535-649 | which error a refused reserve gets |
| `CapLedger.ReserveRefuses` | packages/storage/postgresStore.ts:535-600 | a used id is answered exactly for the same row and amount, and malformed input is refused whatever the ledger holds |
| `CapLedger.ReleaseFrees` | packages/storage/postgresStore.ts:659-702 | releasing an active reservation reports the reduced total, lowers the row by its amount and marks it released; releasing it again reports a replay and changes nothing |
| `CapLedger.ReleaseError` | packages/storage/postgresStore.ts:651-672 | a release is refused exactly for a malformed identifier or an unknown reservation |
| `CapLedger.DateShapeIff` | packages/storage/postgresStore.ts:550-552 | a spend date is four, two and two digits with dashes between |
| `Webhook.SignedStringDeterminesFields` | packages/partner-transport/signing.ts:70-83 | the signed string determines timestamp, nonce, idempotency key and body digest |
| `Webhook.AppliesAtMostOnce` | packages/partner-transport/receiver.ts:68-82 | over any deliveries apply completes at most once for each key-id and idempotency-key entry |
| `Webhook.NoncesSeparated` | packages/partner-transport/signing.ts:171-177 | with a forward clock two verified deliveries with one key id and nonce are at least the first one's remaining window apart |
| `Webhook.SameHeadersVerifyAgainIff` | packages/partner-transport/signing.ts:149-177 | the same headers verify again exactly at the last second of their own window |
| `Webhook.RedeliveryIsDuplicate` | packages/partner-transport/receiver.ts:29-47 | a redelivery under an applied entry is a duplicate with the same event id, or is refused |
| `Webhook.MemoryReplayStore.ConsumeOnce` | packages/partner-transport/signing.ts:37-48 | the purge loop and the one-time insert |
| `Webhook.MemoryPartnerIdempotencyStore.RunOnce` | packages/partner-transport/receiver.ts:29-47 | replay, refusal, or work with its receipt kept |
| `Webhook.Receiver.VerifyWebhook` | packages/partner-transport/signing.ts:117-179 | checks, then the nonce |
| `Webhook.Receiver.ReceiveWebhook` | packages/partner-transport/receiver.ts:50-83 | stores and reply of a delivery |
| `Webhook.VerifiedIff` | packages/partner-transport/signing.ts:117-179 | a delivery verifies exactly with the version, well-formed tokens and timestamp, a body within the limit, a timestamp within the window, a known key of 32 bytes, the signature over its own fields, and a nonce not kept past now |
| `Webhook.EntriesAreSigned` | packages/partner-transport/signing.ts:149-169 | over any deliveries every verified or applied entry comes from a delivery that bears that signature |
| `Webhook.SignaturesSeparate` | packages/partner-transport/signing.ts:149-169 | with a collision-free digest and MAC two verified deliveries with one signature agree in timestamp, nonce, idempotency key and body |
| `Webhook.VerifyRemembers` | packages/partner-transport/signing.ts:171-177 | a delivery that verifies has its nonce kept to the end of its window, and a refused one changes no nonce that is still kept |
| `Webhook.SignedVerifies` | packages/partner-transport/signing.ts:85-115 | what the signer makes verifies at a receiver with its key, within the window and with an unused nonce |
| `Webhook.TimestampIff` | packages/partner-transport/signing.ts:141-143 | a timestamp is accepted exactly when it is the decimal numeral of a number below ten to the sixteenth |
| `Webhook.FirstIsApplied` | packages/partner-transport/receiver.ts:50-83 | the first delivery of an entry is applied and answered as accepted, or leaves no receipt when applying throws |
| `Webhook.LaterIsDuplicate` | packages/partner-transport/receiver.ts:29-47 | a later delivery of an applied entry is answered as a duplicate without applying exactly when its body is the same, and refused otherwise |

## Left out

- HTTP routing, cookies, headers, SSE streams, sessions, telemetry, static assets and browser code: plumbing around the cores above.
- WebAuthn, OIDC and JWT verification, `tools/`, launch policy, capacity evidence: straight-line checks and file work.
- Cryptography itself: digests, MACs, signatures and key fingerprints are uninterpreted functions.
- The order of a JavaScript Map in the airlock, operations and replay maps: snapshots may list records in any order. The rate limiter's order is modelled.
- Reading the clock twice in one call: each engine call gets one `now`. Malformed or empty identifiers of the airlock engine are not modelled.
- Instants so late that adding a time-to-live leaves the range of a Date, or years outside 0001 to 9999 in a binding: the airlock engine's times are plain integers.
- The airlock engine's audit is kept as kind, correlation and time of each entry; its hash chain is the subject of `AuditChain`.
- Event and intent ids drawn at random in the operations machine: nothing reads them. Case and override ids drawn at random are arguments of the call.
- OperationsTheorems.RunRestorableIff: like every theorem of that module, on maps keyed by pairs, which are the program's maps while tenant ids hold no colon; what a run with colliding texts restores to is shown by one witness only.
- Audit payloads are texts, and JSON text of stored responses is the response: parsing and printing them are taken to be inverse.
- Timestamps in bindings are read by a function each implementation brings; the calendar is modelled only for stored timestamps.
- JSON numbers that overflow a double, and explicitly undefined properties, in bindings.
- SQLite and Postgres: each transaction is one step on tables, and a transaction that throws has no effect.
- Concurrent appends on one remote-audit handle; a publish of an append that throws after its effect, and an open during an append, only as the two lemmas that show what they would break.
- The schema-1 migration of the lab snapshot, and servers without a database or without an idempotency key.
- A lab handler that throws an HTTP error is taken to throw it before it changes the state, as the handlers do.
- Clock readings and random ids inside a lab handler: a handler is a function of the state and the request body.
- The Postgres outbox and aggregate tables: the same shape as the SQLite ones.
- Webhook timestamps beyond the safe integers, where the program's number would be rounded.
- Dispatcher.PassSettles: follows the row of an event through the pass; what other workers do to it in between enters through the rows each lease call meets, and afterwards is the subject of `Outbox`.
- The refusal of a lab request by the rate limiter, between the lookup and the handler: it replies and touches nothing else.
