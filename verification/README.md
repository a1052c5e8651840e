# Verified model of the OpenWA control plane

The service keeps its whole state in PostgreSQL and moves it by transactions: contact evidence is resolved
into clusters and projected onto group members, group details are reconciled from a gateway, campaigns send
messages. This project models those transactions in Dafny and proves what they keep over every interleaving
of every number of workers, with leases expiring, holders stalling and rows being deleted at any time.

Each part has two layers. The first is a value model: the tables as maps, one function per transaction, and
lemmas about every state that any list of transactions reaches. The second is a class whose fields are the
tables and whose methods are the transactions written step by step, each proved to produce exactly the state
the first layer gives it. The parts are:

- **Contacts.** `ContactEvidence` (the evidence writer and the backfill), `ContactResolution` and
  `ContactResolutionRepository` (conflicts, recursive closure, clusters, difference from the previous run),
  `ContactClusters` (their outcome told from the rows a run reads), `ContactBackfill` (what backfilled evidence can and
  cannot do), `ContactNames` and `ContactRanking` (what a member shows, and which of its names ranks first),
  `ContactPushNames` (what a sender's push name does and does not queue), `ContactProjection` and
  `ContactProjectionRepository` (the revisioned, paged projection queue), `ContactFreshness` (when what it projected
  is current), `ContactStaleness` (how it becomes stale), `IdentityMerge` and `ContactRepository` (the destructive
  legacy merge).
- **Gateway.** `SyncLedger`, `SyncHistory` and `GatewaySyncRepository` (runs, items, epochs, and why items end as they
  do), `SnapshotGuard` (suspiciously small discoveries), `GroupIntents`, `IntentHistory` and `GroupIntentRepository`
  (coalesced reconciliation requests), `GroupWrites` (order of detail writes under expiring leases), `PacingLimit` and
  `PacingPressure` (adaptive pacing, and what failures do to it).
- **Campaigns.** `Campaigns` (the transactions), `CampaignSafety`, `CampaignPipeline` and `CampaignCoverage` (what every
  reachable state keeps), `CampaignSchedule` (runs wait for their time), `CampaignOutcomes` (how runs, deliveries and jobs
  end), `CampaignReconciliation` (audit and repair script), `CampaignRepository` (the tables), and `OutboundLease` (timed
  exclusion of POSTs).
- **Tooling.** `FeatureCycles` (the dependency-cycle check).

`Options`, `Orders`, `Delays` and `Reachability` are shared. Text keys and UUIDs are naturals under their usual order, hashes
are taken to be injective, tokens to be fresh, and the current time is a parameter of each transaction. A lock
that a transaction holds until it commits makes it one step.

Some results say where the code does not do what one might expect of it; each comes with the exact condition
and, where it is about the code as deployed, a concrete run:

- A published contact snapshot queues nothing for the push names it brings. An idle member is left stale exactly
  if nothing ranks before push names for it and the snapshot changes its identity's own newest one, or, where it
  has none, its aliases' newest one (`ContactStaleness.SnapshotLeavesStale`, `ContactStaleness.SnapshotCanLeaveStale`).
- The deletion of old snapshots takes their push names along and queues nothing either: an identity that was in none
  of the later ones goes on showing a deleted name. Exactly when is stated by `ContactStaleness.DeletionLeavesStale`,
  and `ContactStaleness.DeletionCanLeaveStale` is a run in which it happens.
- A sender's push name that queues nothing changes no other identity's push name while each cluster has at most one
  phone JID and one other identity to be heard (`ContactPushNames.UnqueuedPushIsHarmless`). That is so unless a member
  was backfilled under a device name (`ContactProjection.ResolverRunsHaveFewVoices`), which makes a third voice. Then an
  idle member can be left stale (`ContactBackfill.UnqueuedPushCanMatter`, `ContactStaleness.SenderCanLeaveStale`), exactly
  if nothing ranks before push names for it, its identity has none, and the new one overtakes its aliases' newest with
  another name (`ContactStaleness.SenderLeavesStale`).
- Apart from these three ways incremental projection agrees with full re-projection
  (`ContactFreshness.IncrementalAgreesWithFull`). The theorem is about one work row and the steps since its last request.
  It asks of those that no snapshot was published, that push names were deleted only by the pruning of superseded
  ones, and that senders that queued nothing were heard under resolutions with at most two voices in each cluster.
  What came before the request does not matter. A completed run is anything the resolver makes of evidence that the
  writer and the backfill store; nothing else is assumed of it.
- Quarantine isolates if and only if the evidence gives no conflicted identity a derived edge
  (`ContactResolution.IsolationCondition`), which is also exactly when every identity is visited by the pages of its own
  work row (`ContactProjection.AllServedIffIsolated`, `ContactProjection.AllServedIffUnderived`). All evidence the service
  stores meets the condition (`ContactEvidence.StoredEvidenceHasShape`, `ContactProjection.ResolverRunsAreSane`), as no
  statement stores another phone with a phone JID than its own (`ContactBackfill.MirrorKeepsStoredPhone`).
- The details a capability refresh stores can be followed by older ones if and only if, when it commits, the pacing
  row names an item or intent of the group that owns its row and began a read that may return less
  (`GroupWrites.RefreshStandsIffUnthreatened`, `GroupWrites.RefreshCanBeOverwritten`). That cannot be while the
  pacing row still carries the refresh's own reservation (`GroupWrites.ReservedRefreshStands`).
- Two POSTs of one session stay apart if and only if the time from renewal to POST and the POST timeout together
  fit into one renewal (`OutboundLease.SafeIffBoundsFit`).

## Model

| member | source | states |
|---|---|---|
| `Reachability.Reach` | src/modules/contacts/contact-resolution.repository.ts:148-153 | the recursive query ends and holds exactly the pairs of a node and something a walk of edges joins to it |
| `Reachability.Components` | src/modules/contacts/contact-resolution.repository.ts:139-157 | every reached node gets the least root of its component, and nothing else gets one |
| `Reachability.SameComponentIffJoined` | src/modules/contacts/contact-resolution.repository.ts:144-155 | two nodes carry the same component id exactly when an undirected walk joins them |
| `ContactEvidence.EvidenceTables.Publish` | src/modules/contacts/contact-evidence.writer.ts:102-246 | one observation stores each identity once and adds exactly one link to its phone under a new key, and nothing under a used one; members and senders link phone JIDs only |
| `ContactEvidence.EvidenceTables.PublishAll` | src/modules/contacts/contact-evidence.writer.ts:23-53 | a batch leaves every observed identity and phone stored, and the tables in the shape below |
| `ContactEvidence.EvidenceTables.Backfill` | src/modules/contacts/contact-projection.repository.ts:206-263 | a member row of before is stored as an identity under its own name, and a phone JID with a numeric phone gains one derived link to it under a new key, and nothing under a used one |
| `ContactEvidence.StoredEvidenceHasShape` | src/modules/contacts/contact-evidence.writer.ts:167-233 | whatever generation and cutoff a run reads of what writer and backfill stored, links lead from non-phones to phones and a phone JID derives one phone; a phone is derived from one phone JID unless one is stored under a device name |
| `ContactResolution.EvidenceOrderIrrelevant` | src/modules/contacts/contact-resolution.repository.ts:93-225 | the whole outcome of a run depends only on which evidence rows exist, not on their order or repetition |
| `ContactResolution.SameClusterIffJoined` | src/modules/contacts/contact-resolution.repository.ts:139-157 | two identities share a cluster exactly when a walk of eligible edges joins them |
| `ContactResolution.ResolutionWellFormed` | src/modules/contacts/contact-resolution.repository.ts:154-190 | a cluster id is a member of its own cluster, the least observed one, and the row counts its members |
| `ContactResolution.ClosureIsOneHop` | src/modules/contacts/contact-resolution.repository.ts:129-157 | on written evidence the recursive closure equals the one-hop grouping by phone |
| `ContactResolution.ResolutionIsOneHop` | src/modules/contacts/contact-resolution.repository.ts:104-190 | on written evidence clusters are phones' groups, conflicted identities are alone without phone, resolved ones show their group's phone |
| `ContactResolution.PhonesAreUnambiguous` | src/modules/contacts/contact-resolution.repository.ts:104-172 | no cluster holds two phones, nor two identities that are neither phone nor phone JID |
| `ContactResolution.IsolationCondition` | src/modules/contacts/contact-resolution.repository.ts:129-190 | quarantine isolates exactly when the evidence gives no conflicted identity a derived edge |
| `ContactResolution.WriterShapeIsolates` | src/modules/contacts/contact-resolution.repository.ts:104-190 | on written evidence every quarantined identity is a cluster of its own without phone |
| `ContactClusters.ClusterShowsLatestName` | src/modules/contacts/contact-resolution.repository.ts:201-222 | a cluster shows the contact name observed last of those of its identities that the run reads, at equal times the one with the greatest key and then the least row, and none exactly if there is none |
| `ContactClusters.QuarantinedExactly` | src/modules/contacts/contact-resolution.repository.ts:104-172 | an identity is quarantined, without phone, exactly if the rows read tie it to two phones or its contact phone is that of two identities that are no phone JIDs; any other shows its cluster's phone |
| `ContactClusters.SameClusterIffTied` | src/modules/contacts/contact-resolution.repository.ts:129-157 | two identities share a cluster exactly if a chain of rows read ties them, each derived or of an identity that is not quarantined |
| `ContactClusters.UnreadRowsAreInvisible` | src/modules/contacts/contact-resolution.repository.ts:93-102 | rows of other generations or inserted after the cutoff, and identities first observed after it, do not change what a run resolves to |
| `ContactResolution.DiffIsComplete` | src/modules/contacts/contact-resolution.repository.ts:273-330 | an identity whose cluster is not queued keeps its assignment, cluster name and resolved aliases |
| `ContactBackfill.MirrorKeepsStoredPhone` | src/modules/contacts/contact-projection-batch.repository.ts:68-73 | a numeric phone projected for a phone JID, resolved or not, is the JID's own number, so what is mirrored and later backfilled derives no other phone |
| `ContactBackfill.UnqueuedPushCanMatter` | src/modules/contacts/contact-projection.repository.ts:53-65 | a member backfilled under a device name makes a third voice of its cluster, and a sender repeating its name then changes the name it would show without queueing it |
| `ContactResolutionRepository.Repository.Claim` | src/modules/contacts/contact-resolution.repository.ts:49-74 | a due or expired run is leased and counted, or there is none |
| `ContactResolutionRepository.Repository.Resolve` | src/modules/contacts/contact-resolution.repository.ts:76-338 | an owned run is resolved column by column, completed, and compared with the latest other completed run; a lost lease changes nothing |
| `ContactResolutionRepository.Repository.Fail` | src/modules/contacts/contact-resolution.repository.ts:340-350 | the holder's run is set back with capped exponential delay, or failed after five attempts |
| `ContactResolutionRepository.ConflictRowsExactly` | src/modules/contacts/contact-resolution.repository.ts:104-127 | an assigned identity is recorded under each code exactly for the reason that the rows read give |
| `ContactResolutionRepository.Build` | src/modules/contacts/contact-resolution.repository.ts:93-225 | conflicts, eligible edges, components, clusters, assignments and names together meet the meaning of a run |
| `ContactProjection.PageReaches` | src/modules/contacts/contact-projection-batch.repository.ts:45-177 | after a page every member of the cluster up to the new cursor carries the requested revision, and after a short page all do |
| `ContactProjection.IdleMeansCurrent` | src/modules/contacts/contact-projection-batch.repository.ts:184-209 | an idle row completed its requested revision, its members carry at least that and show what the latest run gives them |
| `ContactProjection.EnqueueKeeps` | src/modules/contacts/contact-projection.enqueue.ts:3-102 | a request keeps every row in step, whatever it coalesces with or retires |
| `ContactProjection.CompleteKeeps` | src/modules/contacts/contact-resolution.repository.ts:273-330 | a completing run queues every row whose members it changes; it is any well-formed run whose quarantine isolates, as all the resolver's are by `ResolverRunsAreSane` |
| `ContactProjection.StepKeeps` | src/modules/contacts/contact-projection-batch.repository.ts:21-211 | request, claim, page, release, failure, observation, deletion, completed run, sender, snapshot and deleted push names all keep the queue's invariant; a completed run is anything the resolver makes of stored evidence |
| `ContactProjection.IdleMembersAreStaleOnlyInPushNames` | src/modules/contacts/contact-projection-batch.repository.ts:25-211 | in every reachable state, completed runs being anything the resolver makes of stored evidence, a member whose work row is idle shows a full re-projection under the latest run with the push names its page read, and is stale exactly if nothing ranks before push names and its own have changed since |
| `ContactFreshness.IncrementalAgreesWithFull` | src/modules/contacts/contact-projection-batch.repository.ts:25-211 | in every reachable state a member whose work row is idle shows what a full re-projection would show, if since the row's last request no snapshot was published, push names were only pruned, and senders that queued nothing were heard with at most two voices in each cluster |
| `ContactFreshness.PruningIsInvisible` | src/modules/orchestration/data-retention.tick.ts:175-218 | deleting observations that a newer one of the same identity outlives changes no newest push name |
| `ContactNames.NewestIsListedFirst` | src/modules/contacts/contact-projection-batch.repository.ts:103-127 | the newest push of an identity is one of those present and no other present one of it is listed before it |
| `ContactProjection.ResolverRunsAreSane` | src/modules/contacts/contact-resolution.repository.ts:76-338 | every run of the resolver on stored evidence, written or backfilled, is well formed and its quarantine isolates |
| `ContactProjection.ResolverRunsHaveFewVoices` | src/modules/contacts/contact-resolution.repository.ts:76-338 | if no phone JID is stored under a device name, such a run leaves at most two identities in a cluster that can be heard |
| `ContactProjection.AllServedIffIsolated` | src/modules/contacts/contact-projection-batch.repository.ts:45-54 | in any run without phones on quarantined rows, the pages of each identity's work row visit it and a change of it queues that row, exactly if quarantine isolates |
| `ContactProjection.AllServedIffUnderived` | src/modules/contacts/contact-projection-batch.repository.ts:45-54 | where links lead to phones, that is exactly if the evidence gives no conflicted identity a derived edge |
| `ContactStaleness.SnapshotLeavesStale` | src/modules/contacts/contact-evidence.writer.ts:146-166 | a published snapshot leaves a current idle member stale exactly if nothing ranks before push names and it changes the identity's own newest one, or its aliases' newest if it has none |
| `ContactStaleness.SnapshotCanLeaveStale` | src/modules/contacts/contact-snapshot-lifecycle.repository.ts:95-103 | a concrete run in which the member keeps the old name under an idle row |
| `ContactStaleness.SnapshotPushes` | src/modules/contacts/contact-evidence.writer.ts:146-166 | the newest push names after a snapshot are the newer of those before and those it brings |
| `ContactStaleness.DeletionLeavesStale` | src/modules/contacts/contact-snapshot-lifecycle.repository.ts:48-62 | deleting observations leaves a current idle member stale exactly if nothing ranks before push names and the newest one left of its identity, or of its aliases if it had none, reads otherwise or is gone |
| `ContactStaleness.DeletionCanLeaveStale` | src/modules/contacts/contact-snapshot-lifecycle.repository.ts:48-62 | a concrete run in which the member keeps a deleted name under an idle row |
| `ContactStaleness.SenderLeavesStale` | src/modules/contacts/contact-evidence.writer.ts:66-99 | a sender that queues nothing leaves a current idle member stale exactly if nothing ranks before push names, its identity has none, and the observation overtakes the newest of its aliases with another name |
| `ContactStaleness.SenderCanLeaveStale` | src/modules/contacts/contact-evidence.writer.ts:66-99 | a concrete run, with a member backfilled under a device name, in which it does |
| `ContactProjection.ClaimStands` | src/modules/contacts/contact-projection.repository.ts:372-415 | a claimed row keeps its claim through every transaction but those of its holder, until the lease has run out |
| `ContactProjection.PagesAdvance` | src/modules/contacts/contact-projection-batch.repository.ts:56-64 | a full page moves the cursor forward, a short one completes the revision, and the row waits again exactly if a later one was requested |
| `ContactProjection.RequestsKeepProgress` | src/modules/contacts/contact-projection.enqueue.ts:8-99 | a request keeps the revision, cursor and attempts of work that is running or waiting to retry, and starts anything else over |
| `ContactProjection.RequestsRetireAliases` | src/modules/contacts/contact-projection.enqueue.ts:8-99 | after a request no requested identity that another row covers has work of its own waiting, retrying or failed |
| `ContactRanking.ShownByRank` | src/modules/contacts/contact-projection-batch.repository.ts:74-127 | a member shows the contact name of the cluster it is resolved into, or else its participant name, its own newest push name, the newest of its aliases, or nothing: each exactly if it has none of those before, with the name that belongs to it |
| `ContactRanking.ShownPhone` | src/modules/contacts/contact-projection-batch.repository.ts:68-73 | a resolved member shows the phone assigned to it, an unresolved phone JID its own number, any other none |
| `ContactRanking.NewestIsObservedLast` | src/modules/contacts/contact-projection-batch.repository.ts:103-127 | the newest push name of an identity is one still present, and no present one of it was observed later, or at the same time under a greater key or a later row |
| `ContactProjectionRepository.ProjectionQueue.Enqueue` | src/modules/contacts/contact-projection.enqueue.ts:8-99 | canonicalization, one upsert per canonical identity, then retirement of aliases |
| `ContactProjectionRepository.ProjectionQueue.Claim` | src/modules/contacts/contact-projection.repository.ts:372-415 | a claim resumes the active revision, or starts the requested one under the run completed by its cutoff |
| `ContactProjectionRepository.ProjectionQueue.Project` | src/modules/contacts/contact-projection-batch.repository.ts:21-211 | one page: keyset selection, guarded writes, then completion or cursor advance; a lost lease changes nothing |
| `ContactProjectionRepository.ProjectionQueue.ProjectMember` | src/modules/contacts/contact-projection-batch.repository.ts:65-139 | name and phone of a member by the stated precedence, with the newest alias push name |
| `ContactProjectionRepository.ProjectionQueue.Release` | src/modules/contacts/contact-projection.repository.ts:455-462 | the holder gives the claim back |
| `ContactProjectionRepository.ProjectionQueue.Fail` | src/modules/contacts/contact-projection.repository.ts:464-475 | the holder's work retries later, or fails after five attempts |
| `ContactProjectionRepository.ProjectionQueue.Observe` | src/modules/contacts/contact-evidence.writer.ts:49-52 | a member write queues its identity in the same transaction |
| `ContactProjectionRepository.ProjectionQueue.HearSender` | src/modules/contacts/contact-evidence.writer.ts:55-100 | the sender's newest name is looked up, the new one inserted, and the identity queued exactly if it had none or the new one is newer and reads differently |
| `ContactProjectionRepository.ProjectionQueue.PublishSnapshot` | src/modules/contacts/contact-evidence.writer.ts:146-166 | the push names of a snapshot are inserted and nothing is queued |
| `ContactPushNames.UnqueuedPushEffect` | src/modules/contacts/contact-evidence.writer.ts:66-99 | an observation that queues nothing changes the push name of an identity exactly if that has none of its own and the observation overtakes the newest of its aliases with another name |
| `ContactPushNames.UnqueuedPushIsHarmless` | src/modules/contacts/contact-evidence.writer.ts:66-99 | with at most two voices in each cluster an observation that queues nothing changes no push name |
| `ContactPushNames.WrittenEvidenceHasFewVoices` | src/modules/contacts/contact-resolution.repository.ts:104-190 | runs on written evidence leave at most two identities in a cluster that can be heard |
| `IdentityMerge.NothingDangles` | src/modules/contacts/contact.repository.ts:391-425 | after a merge identifiers, names and members point to surviving contacts and no identifier is lost |
| `IdentityMerge.ComponentsBecomeOne` | src/modules/contacts/contact.repository.ts:317-358 | two identifiers end at one contact exactly when evidence for phones that nobody else claims joins their contacts, and that contact is the oldest of those joined |
| `IdentityMerge.LatestNameWins` | src/modules/contacts/contact.repository.ts:360-395 | a survivor keeps, per source, one of the component's names with its value, time and key, and none of them is later |
| `IdentityMerge.MergeIsComplete` | src/modules/contacts/contact.repository.ts:317-425 | planning again on the same evidence finds nothing to merge |
| `IdentityMerge.KeptNameSpansOwn` | src/modules/contacts/contact.repository.ts:360-395 | the name a survivor keeps for a source spans the one it had itself |
| `IdentityMerge.SurvivorSpansAll` | src/modules/contacts/contact.repository.ts:360-425 | a survivor keeps its creation time and its span covers every contact joined to it |
| `ContactRepository.ContactTables.ReconcileObservedIdentities` | src/modules/contacts/contact.repository.ts:303-482 | without ownership nothing happens; otherwise a merge by the plan, the counts of merged contacts and ambiguous evidence, and deletion of the evidence up to the generation |
| `FeatureCycles.Search.Visit` | scripts/check-architecture.ts:83-95 | a visit restores the stack, finishes the feature or reports the edge that closed a cycle, and leaves finished features explained |
| `FeatureCycles.FindFeatureCycles` | scripts/check-architecture.ts:77-100 | the search ends; each report is a simple cycle, no edge closes two reports, every closed walk uses a reported closing edge, and none is reported exactly when there is no cycle |
| `FeatureCycles.ClosedWalksAreMet` | scripts/check-architecture.ts:77-100 | the edges that closed the reported cycles meet every closed walk of the graph |
| `OutboundLease.StepKeeps` | src/modules/messages/outbound-session-lease.service.ts:19-45 | while the bounds fit, a call that may still POST holds the unexpired row and every other POST ended before it acquired |
| `OutboundLease.SafeIffBoundsFit` | src/modules/messages/outbound-session-lease.service.ts:19-45 | for any calls, stalls, expiries and crashes POSTs stay the minimum delay apart exactly when start bound and POST bound fit into one renewal |
| `OutboundLease.DeployedBoundsAreSafe` | src/integrations/openwa/openwa.client.ts:150-155 | with a 30 s request timeout and a start within 15 s of the renewal they do |
| `OutboundLease.OutboundSessionLeases.TryAcquire` | src/modules/messages/outbound-session-lease.repository.ts:8-30 | the row is taken if absent, expired or own, and otherwise left alone |
| `OutboundLease.OutboundSessionLeases.Renew` | src/modules/messages/outbound-session-lease.repository.ts:32-41 | only the unexpired holder extends |
| `OutboundLease.OutboundSessionLeases.Release` | src/modules/messages/outbound-session-lease.repository.ts:43-50 | only the holder's row is deleted |
| `PacingLimit.RateStaysWithinBounds` | src/modules/gateway/gateway-sync-rate-limit.repository.ts:15-122 | the effective rate stays within its bounds, the streak below the threshold, and each acquisition waits out its predecessor's gap |
| `PacingLimit.MinuteBound` | src/modules/gateway/gateway-sync-rate-limit.repository.ts:28-50 | any half-open minute holds at most the maximum number of acquisitions, under every mix of outcomes and expiries |
| `PacingLimit.PacingRecovers` | src/modules/gateway/gateway-sync-rate-limit.repository.ts:62-83 | without pressure the rate recovers by exactly one per full run of successes, up to the maximum |
| `PacingLimit.SyncRateLimits.Reserve` | src/modules/gateway/gateway-sync-rate-limit.repository.ts:124-134 | ensure, readiness check and acquisition are one reservation step |
| `PacingLimit.SyncRateLimits.ReadyAndRate` | src/modules/gateway/gateway-sync-rate-limit.repository.ts:28-40 | ready exactly when gap, cooldown and lease have passed, with the adaptive or the configured rate |
| `PacingLimit.SyncRateLimits.Success` | src/modules/gateway/gateway-sync-rate-limit.repository.ts:62-83 | the two updates together reward one success of the holder |
| `PacingLimit.SyncRateLimits.Failure` | src/modules/gateway/gateway-sync-rate-limit.repository.ts:85-112 | the holder's failure halves the rate under pressure, cools down and frees the lease |
| `PacingPressure.FailureHalvesRate` | src/modules/gateway/gateway-sync-rate-limit.repository.ts:85-112 | a failure that reduces an adaptive rate halves it, rounding down, not below the minimum, any other leaves it, and both give the lease back |
| `PacingPressure.SuccessClears` | src/modules/gateway/gateway-sync-rate-limit.repository.ts:62-83 | a success forgets failures and cooldown and gives the lease back |
| `PacingPressure.CooldownIsKept` | src/modules/gateway/gateway-sync-rate-limit.repository.ts:28-112 | in every run, after a failure under pressure the session's next request waits for as long as the server asked, or else 5, 15, 30 or 60 seconds with jitter by the failures since the last success |
| `PacingPressure.OneRequestAtATime` | src/modules/gateway/gateway-sync-rate-limit.repository.ts:28-122 | in every run, between two acquisitions of a session the first holder gave back or its lease ran out |
| `PacingPressure.ReservesExactlyWhenFree` | src/modules/gateway/gateway-sync-rate-limit.repository.ts:28-60 | a reservation succeeds exactly if gap, cooldown and lease of the row are over, and sets the next gap to a minute divided by the rate |
| `SyncLedger.LedgerBalances` | src/modules/gateway/gateway-sync-item.repository.ts:110-150 | completed, failed, skipped and remaining items add up to those scheduled, and a run reconciles exactly while items remain |
| `SyncLedger.PublishedRunsEnd` | src/modules/gateway/gateway-sync-item.repository.ts:205-382 | a published run's work shrinks with every item step, which are at most two for each attempt at each group scheduled, and is zero exactly when the run is over |
| `SyncLedger.OneActiveRun` | src/modules/gateway/gateway-sync-run.repository.ts:154-196 | a session has at most one pending or running run, and the running one carries the current epoch |
| `SyncLedger.StaleEpochsAreFenced` | src/modules/gateway/gateway-write-fence.repository.ts:11-31 | after a further claim no check with an earlier epoch passes |
| `SyncLedger.StepKeeps` | src/modules/gateway/gateway-sync-item.repository.ts:205-382 | every run and item transaction keeps ledger and fences |
| `SyncHistory.ResultEndsItem` | src/modules/gateway/gateway-sync-item.repository.ts:261-335 | a read completes its item, a missing group skips it, a failure sets it back exactly if it may be retried and attempts are left and fails it otherwise, and no other item changes |
| `SyncHistory.ItemsEndForTheirReasons` | src/modules/gateway/gateway-sync-item.repository.ts:205-359 | in every run an item has been claimed as often as it has attempts, was completed by a read with its members, skipped by a read that found no group, and failed by a failure for good or after its last attempt |
| `SyncHistory.RunsAreTriedThrice` | src/modules/gateway/gateway-sync-run.repository.ts:138-240 | in every run a pending sync run has attempts left, and one fails before publication exactly with its third |
| `SyncHistory.ItemClaimStands` | src/modules/gateway/gateway-sync-item.repository.ts:242-359 | a claimed item is ended or renewed by its holder alone before the lease runs out, and taken away only after that |
| `SyncHistory.RunClaimStands` | src/modules/gateway/gateway-sync-run.repository.ts:138-240 | the same of a run under discovery |
| `GatewaySyncRepository.SyncTables.Create` | src/modules/gateway/gateway-sync-run.repository.ts:65-87 | an active run is reused or refused by mode, otherwise a fresh one is created |
| `GatewaySyncRepository.SyncTables.ClaimRun` | src/modules/gateway/gateway-sync-run.repository.ts:154-196 | the claim bumps the session's epoch with the run's, and the claimant passes the fence |
| `GatewaySyncRepository.SyncTables.FailRun` | src/modules/gateway/gateway-sync-run.repository.ts:218-240 | the holder's attempt is set back with delay, or the run fails after three |
| `GatewaySyncRepository.SyncTables.RecoverRuns` | src/modules/gateway/gateway-sync-run.repository.ts:138-152 | every expired run is set back |
| `GatewaySyncRepository.SyncTables.PublishDiscovery` | src/modules/gateway/gateway-sync-item.repository.ts:37-151 | an owned discovery is set aside exactly if it is too small a share of the last applied set and not confirmed often enough, and otherwise replaces the group set and publishes its items |
| `GatewaySyncRepository.SyncTables.ClaimItem` | src/modules/gateway/gateway-sync-item.repository.ts:205-240 | item and pacing row are claimed together; a refused claim leaves the pacing row at most ensured |
| `GatewaySyncRepository.SyncTables.EndItem` | src/modules/gateway/gateway-sync-item.repository.ts:261-335 | the end of a read moves item, parent run and pacing row together |
| `GatewaySyncRepository.SyncTables.RecoverItems` | src/modules/gateway/gateway-sync-item.repository.ts:337-359 | expired items retry or fail, their runs are recounted and expired pacing leases freed |
| `GatewaySyncRepository.SyncTables.RefreshParent` | src/modules/gateway/gateway-sync-item.repository.ts:361-382 | the counters equal the items' counts and the last item ends the run |
| `SnapshotGuard.CounterIsRunLength` | src/modules/gateway/gateway-sync-item.repository.ts:56-98 | the stored counter is the length of the trailing run of identical discoveries set aside |
| `SnapshotGuard.AppliedIffConfirmed` | src/modules/gateway/gateway-sync-item.repository.ts:56-98 | a discovery is applied exactly when it is not suspicious or completes the configured number of identical ones in a row |
| `SnapshotGuard.SmallDiscoveriesWait` | src/modules/gateway/gateway-sync-item.repository.ts:69-98 | in every history, with the size of the last applied discovery as baseline, or the number of rows before one, a discovery is set aside exactly if the baseline is large enough to judge by, the discovery is less than the configured share of it, and it does not complete the required number of agreeing ones |
| `SnapshotGuard.OutageIsSetAside` | src/modules/gateway/gateway-sync-item.repository.ts:69-98 | an empty discovery after one that was not never replaces a set large enough to judge by |
| `GroupIntents.RevisionsAreOrdered` | src/modules/gateway/gateway-group-intent.repository.ts:21-302 | completed never exceeds requested, equality means completed, waiting intents have attempts left, and the wait is bounded |
| `GroupIntents.CoalescingDoesNotStarve` | src/modules/gateway/gateway-group-intent.repository.ts:42-55 | a pending intent is claimable once the maximum wait since its first request has passed, however often it is requested |
| `GroupIntents.CompletedReadIsFresh` | src/modules/gateway/gateway-group-intent.repository.ts:115-233 | a completed intent was completed by a read claimed after the last request |
| `GroupIntents.RequestsEnd` | src/modules/gateway/gateway-group-intent.repository.ts:115-302 | without a further request an intent is over after boundedly many steps |
| `IntentHistory.ClaimsWaitForDebounce` | src/modules/gateway/gateway-group-intent.repository.ts:21-149 | in every run a read starts only once the debounce since the last request is over, or the maximum wait since the first |
| `IntentHistory.FailureDecides` | src/modules/gateway/gateway-group-intent.repository.ts:235-275 | a failure of a revision that was requested again reopens the intent, otherwise it is retried after the doubling delay exactly if it may be and attempts are left, and given up if not |
| `IntentHistory.WhyIntentsFail` | src/modules/gateway/gateway-group-intent.repository.ts:235-302 | in every run an intent is given up only after its last attempt, or on a failure that may not be retried and after which nobody requested it |
| `IntentHistory.ClaimStands` | src/modules/gateway/gateway-group-intent.repository.ts:151-302 | a claimed read is ended or renewed by its holder alone before the lease runs out, and taken away only after that; a request leaves it alone |
| `GroupIntentRepository.IntentTable.Schedule` | src/modules/gateway/gateway-group-intent.repository.ts:21-74 | the insert and every branch of the conflict update |
| `GroupIntentRepository.IntentTable.TryClaim` | src/modules/gateway/gateway-group-intent.repository.ts:115-149 | pacing and intent are claimed together or not at all |
| `GroupIntentRepository.IntentTable.RenewLease` | src/modules/gateway/gateway-group-intent.repository.ts:151-168 | both leases are renewed or neither |
| `GroupIntentRepository.IntentTable.Complete` | src/modules/gateway/gateway-group-intent.repository.ts:170-201 | an owned read completes its revision or reopens the intent, and counts as a pacing success |
| `GroupIntentRepository.IntentTable.SkipMissing` | src/modules/gateway/gateway-group-intent.repository.ts:203-233 | a missing group ends the read and frees the pacing lease |
| `GroupIntentRepository.IntentTable.Fail` | src/modules/gateway/gateway-group-intent.repository.ts:235-275 | an owned failure reopens, retries or fails, and is reported to pacing |
| `GroupIntentRepository.IntentTable.RecoverExpired` | src/modules/gateway/gateway-group-intent.repository.ts:277-302 | every expired claim is recovered and expired pacing leases of those sessions freed |
| `GroupWrites.WriteOrderIsReadOrder` | src/modules/gateway/gateway-write-fence.repository.ts:33-70 | writes through items and intents commit in the order their reads began, without overlap, and never store an older version |
| `GroupWrites.RefreshSeesTheLatest` | src/modules/gateway/gateway-group-snapshot.repository.ts:159-212 | a capability refresh commits only if nothing was written to its group since its claim |
| `GroupWrites.OnlyRefreshIsOverwritten` | src/modules/gateway/gateway-write-fence.repository.ts:33-70 | stored details go back only from a refresh that committed between a fenced writer's claim and its write |
| `GroupWrites.RefreshStandsIffUnthreatened` | src/modules/gateway/gateway-sync.service.ts:286-302 | when a refresh commits, some continuation stores something older exactly if the pacing row names an item or intent of the group that owns its row and began a read that may return less |
| `GroupWrites.ReservedRefreshStands` | src/modules/gateway/gateway-sync.service.ts:286-302 | no continuation does while the pacing row carries the refresh's own reservation |
| `GroupWrites.RefreshCanBeOverwritten` | src/modules/gateway/gateway-sync.service.ts:286-302 | a concrete run in which they do |
| `GroupWrites.SessionGroups.UpsertGroupDetails` | src/modules/gateway/gateway-group-snapshot.repository.ts:144-306 | fence and capability checks, lease clearing and both renewals, rolled back when the pacing token is gone |
| `GroupWrites.SessionGroups.ClaimCapability` | src/modules/gateway/gateway-capability.repository.ts:64-97 | a capability lease is taken when there is none or it expired |
| `CampaignSafety.LifecycleKeeps` | src/modules/campaigns/campaign-run-lifecycle.repository.ts:17-192 | every transaction keeps runs, campaigns and launch history in correspondence |
| `CampaignPipeline.RunKeepsInv` | src/modules/campaigns/campaign-delivery.repository.ts:38-159 | every list of transactions reaches a state that keeps all invariants of runs, deliveries, jobs, workers and POSTs |
| `CampaignPipeline.AtMostOnePost` | src/modules/messages/message-job-processor.service.ts:33-89 | a group receives at most one POST per campaign over every interleaving, retention included |
| `CampaignPipeline.NoDryRunPosts` | src/modules/messages/message-job-processor.service.ts:37-40 | every POST belongs to a live run |
| `CampaignPipeline.StatusFollowsLiveRun` | src/modules/campaigns/campaign-run-lifecycle.repository.ts:17-192 | a campaign's status corresponds to its only live run in every reachable state |
| `CampaignPipeline.LiveRunExists` | src/modules/campaigns/campaign-run.repository.ts:109-191 | a draft never had a live run, an active or paused campaign has its live run |
| `CampaignPipeline.DeliveriesAndJobsCohere` | src/modules/campaigns/campaign-delivery.repository.ts:64-159 | pending deliveries have no job, settled ones no active job, runs at most five active jobs, and completed runs stay settled |
| `CampaignCoverage.CompletedRunsReachedEveryTarget` | src/modules/campaigns/campaign-run.repository.ts:385-400 | when a run is completed every group it was launched for has a settled delivery |
| `CampaignSchedule.RunningRunsAreDue` | src/modules/campaigns/campaign-run-lifecycle.repository.ts:17-24 | over every list of transactions in time order a running run is due, and has its campaign's schedule if that has one |
| `CampaignSchedule.PostsWaitForSchedule` | src/modules/campaigns/campaign-run.repository.ts:391-400 | nothing is POSTed for a campaign or a run before the time it is scheduled for, whether the run was deleted since or not |
| `CampaignSchedule.StartsExactlyWhenDue` | src/modules/campaigns/campaign-run-lifecycle.repository.ts:128-134 | a passing preflight and a resumption start a run exactly if it is due, and schedule it otherwise |
| `CampaignOutcomes.FinalizationDecides` | src/modules/campaigns/campaign-run-lifecycle.repository.ts:26-61 | a run can be finalized exactly if it is running, has deliveries and none is under way; it has partly failed exactly if one was blocked, failed, was cancelled or is unknown, its live campaign is archived, and nothing else changes |
| `CampaignOutcomes.StatusesOnlyAdvance` | src/modules/messages/message-job.repository.ts:104-235 | over any stretch of any run a job never returns to the queue once taken up, goes from accepted over sent and delivered to read, fails only up to acceptance, and stays failed, cancelled, read or dry-run completed |
| `CampaignOutcomes.CancellationDecides` | src/modules/campaigns/campaign-run-lifecycle.repository.ts:148-192 | every run that is not over can be cancelled; exactly its jobs not taken up are cancelled, every target has a delivery and none waits any more, one whose job goes on is left alone, and its live campaign is archived |
| `CampaignOutcomes.CancelStopsPosts` | src/modules/campaigns/campaign-run-lifecycle.repository.ts:148-192 | whatever follows a cancellation, the run stays over and each of its POSTs is by a worker that had taken up its job before |
| `CampaignOutcomes.PreparationsAreTriedThrice` | src/modules/campaigns/campaign-run.repository.ts:266-441 | in every reachable state an unclaimed preparation has attempts left, and one failed exactly with its third |
| `CampaignOutcomes.DeletedCampaignsAreQuiet` | src/modules/campaigns/campaign.repository.ts:496-551 | in every reachable state a deleted campaign is a draft or archived and all its runs are over |
| `CampaignOutcomes.ProcessingStands` | src/modules/messages/message-job.repository.ts:124-205 | a job in processing is settled by a worker that took it up, or becomes unknown once its lease has run out |
| `CampaignOutcomes.PreparationStands` | src/modules/campaigns/campaign-run.repository.ts:266-441 | a claimed preparation is reported on by its holder alone before the lease runs out, and taken away only after that or by a cancellation |
| `CampaignReconciliation.ReachableStatesAreClean` | src/modules/campaigns/campaign-run.repository.ts:229-264 | in every reachable state the audit counts nothing and the repair changes nothing |
| `CampaignReconciliation.ReconcileIsIdempotent` | scripts/reconcile-campaign-live-status.ts:44-67 | repairing twice is repairing once, from any state |
| `CampaignReconciliation.DriftAfterReconcile` | scripts/reconcile-campaign-live-status.ts:16-67 | from any state, exactly what the repair leaves adrift |
| `CampaignReconciliation.ReconcileRepairs` | scripts/reconcile-campaign-live-status.ts:44-67 | with at most one live run each, drift remains exactly on active or paused campaigns without one |
| `CampaignRepository.CampaignTables.Create` | src/modules/campaigns/campaign-run.repository.ts:53-197 | each answer exactly when the code gives it: absent campaign, replay, live run, other revisions, status, schedule, launch |
| `CampaignRepository.CampaignTables.ApplyReport` | src/modules/campaigns/campaign-run.repository.ts:341-403 | an owned report gives back on stale input, blocks, or inserts deliveries and starts the run if it is due and schedules it if not |
| `CampaignRepository.CampaignTables.FailPrep` | src/modules/campaigns/campaign-run.repository.ts:405-441 | the third failed attempt fails the run and archives a live campaign |
| `CampaignRepository.CampaignTables.RecoverPreparations` | src/modules/campaigns/campaign-run.repository.ts:282-311 | exactly the expired preparations are given back or fail, campaigns of failed live runs are archived, and the rest stays |
| `CampaignRepository.CampaignTables.ActivateDue` | src/modules/campaigns/campaign-run-lifecycle.repository.ts:17-24 | exactly the due scheduled runs start |
| `CampaignRepository.CampaignTables.FinalizeRuns` | src/modules/campaigns/campaign-run-lifecycle.repository.ts:26-61 | only running runs with deliveries and none under way end, and up to the limit all of them do; each as its deliveries decide, with the campaigns of live ones archived and no other row changed |
| `CampaignRepository.CampaignTables.PauseRun` | src/modules/campaigns/campaign-run-lifecycle.repository.ts:63-82 | a scheduled or running run pauses with its campaign |
| `CampaignRepository.CampaignTables.ResumeRun` | src/modules/campaigns/campaign-run-lifecycle.repository.ts:93-146 | a paused or blocked run resumes with missing deliveries inserted, running if it is due and scheduled if not, unless the input is stale |
| `CampaignRepository.CampaignTables.CancelRun` | src/modules/campaigns/campaign-run-lifecycle.repository.ts:148-192 | jobs not yet taken up are cancelled with their deliveries, run and campaign end |
| `CampaignRepository.CampaignTables.MaterializePending` | src/modules/campaigns/campaign-delivery.repository.ts:64-160 | exactly as many pending deliveries as there are free slots, or all, get a job or, live and changed, are blocked; an unsendable session pauses a live run |
| `CampaignRepository.FillingIsComplete` | src/modules/campaigns/campaign-delivery.repository.ts:93-158 | afterwards the buffer is full or nothing is pending, unless a blocked delivery used a slot up |
| `CampaignRepository.CampaignTables.ReconcileDeliveries` | src/modules/campaigns/campaign-delivery.repository.ts:38-62 | exactly the deliveries whose job is past the queue show its status, and the count is of those that changed |
| `CampaignRepository.CampaignTables.ClaimDueJobs` | src/modules/messages/message-job.repository.ts:104-122 | scheduled jobs are queued up to the limit |
| `CampaignRepository.CampaignTables.MarkJobProcessing` | src/modules/messages/message-job.repository.ts:124-134 | only a queued job is taken up, and by one worker |
| `CampaignRepository.CampaignTables.RefreshLease` | src/modules/messages/message-job.repository.ts:136-143 | the check holds only while the job is in processing and its lease unexpired, and extends the lease |
| `CampaignRepository.CampaignTables.UpdateResult` | src/modules/messages/message-job.repository.ts:182-205 | only a job in processing takes a result |
| `CampaignRepository.CampaignTables.UpdateStatusByMessageId` | src/modules/messages/message-job.repository.ts:211-235 | a webhook only raises rank or fails what is not beyond acceptance |
| `CampaignRepository.CampaignTables.MarkExpiredUnknown` | src/modules/messages/message-job.repository.ts:163-180 | exactly the jobs whose lease ran out in processing become unknown and are counted |
| `CampaignRepository.CampaignTables.Process` | src/modules/messages/message-job-processor.service.ts:33-89 | one delivery of a job posts at most once, never for a dry run, a lost session lease or an expired job lease, and classifies the answer |
| `CampaignRepository.CampaignTables.Delete` | src/modules/campaigns/campaign.repository.ts:496-551 | a draft or archived campaign at the expected revisions without active run becomes a tombstone |
| `CampaignRepository.CampaignTables.DeleteCampaignRun` | src/modules/orchestration/data-retention.tick.ts:98-108 | a terminal run goes with its deliveries |
| `CampaignRepository.CampaignTables.DeleteMessageJob` | src/modules/orchestration/data-retention.tick.ts:110-122 | a settled job goes only when no delivery refers to it |
| `CampaignRepository.CampaignTables.ApplyReconciliation` | scripts/reconcile-campaign-live-status.ts:69-92 | the script refuses on duplicates, and otherwise applies the whole update and counts it |

## Left out

- HTTP controllers, validation of requests, logging, health checks, metrics and configuration parsing.
- Redis and BullMQ: a queue may deliver a job to any worker any number of times; the OpenWA client is an answer chosen from outside.
- Anomalies of concurrent transactions under READ COMMITTED: every transaction is one step.
- Name and phone normalization: an observation comes with its kind, value and phone; only the phone of a phone JID is tied to its value.
- `ContactEvidence.EvidenceTables.Publish` does not store names: push names are observations of the projection queue, contact names an input of a run.
- Which snapshot generations are old enough to be deleted, and which observations belong to them: the projection queue has a step that drops any observations.
- The digit check of the stored phone columns: a page that would store a device name's number for an unresolved member fails there, and in the model writes it.
- The mirror of projected columns into the legacy member columns, their sort value and timestamps.
- The paging of backfill and bootstrap, which are further requests to the projection queue.
- The legacy contact projection that follows a merge (effective display names and the member fan-out).
- The order in which claimable rows are taken: any claimable row may be taken, as locked rows are skipped.
- Which groups an incremental discovery considers due: a case analysis of fingerprints and timestamps, passed in as a set.
- Group summaries, member rows, capability rules and fingerprints written by a detail write: the write is an entry with the upstream version it read.
- The capability attempt counters, delays and revisions, which only narrow when a refresh may write; a capability lease may disappear at any time.
- The run and epoch part of the item fence in `GroupWrites`, which only narrows when an item may write.
- Rounding of the pacing gap to database microseconds and of random factors: times of pacing and leases are real numbers.
- Session state in `CampaignRepository.CampaignTables.MaterializePending`: whether the session can send, and which capabilities changed, are parameters.
- `CampaignRepository.CampaignTables.Process` is not interrupted by other transactions; their interleavings are those of the worker steps in `Campaigns`, over which the results hold.
- Ages in retention and stale-queue recovery: a row old enough is any row with the right status.
- Message jobs created directly through the API, delivery failure reasons and message attempts.
- Editing of campaigns other than replacing targets while in draft, group lists and the preflight evaluation itself: the report is an input that blocks or does not.
- The retention loop's batching and time budget, and retention of inbound messages, events, webhooks and sync runs.
- `GatewaySyncRepository.SyncTables.PublishDiscovery` does not model the capability changes of groups that become inactive or return.
