# HumanWire verification

A Dafny model of the coordination core of HumanWire, with proofs about every run of it. `dafny verify dfyconfig.toml`
checks the whole project.

**Durable runs** (`Basics`, `Studio`, `CloudModel`, `RunStore`, `InMemoryRunRepository`, `Publication`,
`ProgressPublisher`, `Execution`, `CloudWorker`, `CloudSystem`, `CloudSafety`, `CloudLeases`, `CloudLiveness`,
`FirestoreModel`, `FirestoreRefinement`). A run moves QUEUED, RUNNING, COMPLETE or FAILED under one global slot. Each
repository method is one atomic step of a store, specified as a function and implemented by a class over the
repository's dictionaries. On top, `CloudSystem` is a transition system of any number of deliveries whose calls
interleave freely, with arbitrary clocks; a crash is a delivery that takes no further step, a heartbeat is an action of
its own. Safety holds over every sequence of actions. Liveness says what a delivery that takes its own steps achieves,
whatever others do in between: a live claim cannot be disturbed, so whoever holds one can end its run. A publisher
decides which prefix of a growing snapshot becomes durable; a cold instance rebuilds it. An observer failure does not
stop a runner, so a candidate may be attempted that the publisher's own last snapshot never reached; the exactness
result therefore speaks of candidates that extend the last one whose appends began. The document store is a second
model of the same operations and is proved to refine the first.

**Organization authority** (`DecisionModel`, `DecisionAuthority`, `DecisionInvitations`, `DecisionBatch`,
`DecisionRuns`, `InMemoryDecisionRepository`). Memberships with their audit log, generic and subject invitations with
their token and active indexes, delivery states, retries, batches and the guarded publication of prepared replacements.

**Alignment and negotiation** (`Domain`, `AlignmentModel`, `AlignmentTheorems`, `EvidenceGrowth`, `AlignmentEngine`,
`Negotiation`). The decision procedure over contributions and public evidence, its hybrid variant, and the two-round
proposal machine with checks that may be stale when their transaction runs.

**Outreach and reporting lines** (`OutreachModel`, `OutreachRuns`, `EngagementCoordinator`, `DirectoryModel`,
`OrganizationDirectory`). The escalation of one non-interview engagement under racing calls, and the manager graph.

Conventions. Digests and record hashes are collision-free. Identifiers, references and texts are opaque; regular
expressions of the alignment engine are arbitrary functions of a text. Claim owners are fresh per delivery and
assignment identifiers are primary keys. Times are integers and every clock reading is an input. A refused call changes
nothing; `Err` values name the refusal.

Six results are about limits of the code; each has an exact condition and an input.

- The document store reads a snapshot in two steps, so its prefix check can fail, exactly when a record is stored in
  between (`TornReadFailsExactly`, `TornReadHappens`).
- A publication is refused as immutable exactly when the stored records are not the candidate's own cut
  (`ImmutableExactly`, `RetoldCandidateIsImmutable`); growing candidates never meet it.
- A due step on an assignment that was never contacted raises (`DueRaisesExactly`, `NewAssignmentRaises`). The service's
  own query for due assignments selects only rows with a planned time (`src/humanwire/repository.py:1672-1690`), so such
  a row is reached by a direct call or a time set beforehand.
- A proposal without required respondents waits for ever while its evaluation says aligned
  (`StateAgreesWithOutcomeExactly`, `NobodyRequiredWaits`).
- Checking a target resolves both people a second time by identifier, which an alias of somebody else can make ambiguous
  (`ReresolvesExactly`, `ReresolutionCanFail`).
- More evidence is not always more issues: a contradiction between facts disappears exactly when a new fact breaks every
  comparison that could carry it on (`ConflictSurvivesExactly`, `MoreEvidenceKeepsIssuesExactly`,
  `UndatedFactHidesConflict`).

## Model

| member | source | states |
|---|---|---|
| RunStore.CreateKeepsInv | src/humanwire/cloud_store.py:509-532 | creating a run keeps the store invariant: one live run, named by the slot, valid metadata, gap-free timeline |
| RunStore.FailQueuedDispatchKeepsInv | src/humanwire/cloud_store.py:551-575 | a failed dispatch keeps the invariant, ends the run FAILED, frees the slot, and the lost-slot check never fires |
| RunStore.ClaimKeepsInv | src/humanwire/cloud_store.py:577-650 | a claim keeps the invariant; a recovery appends exactly its record behind all stored ones and overwrites none |
| RunStore.ClaimDecidesExactly | src/humanwire/cloud_store.py:577-650 | each answer of a claim on a known run, if and only if: the stored state and lease decide, and only CLAIMED and RECOVERED change the store |
| RunStore.RenewKeepsInv | src/humanwire/cloud_store.py:652-683 | a renewal keeps the invariant and only evolves the run |
| RunStore.AppendKeepsInv | src/humanwire/cloud_store.py:685-710 | an append adds exactly its record at the end or finds exactly it stored; ordinals stay 1..timeline_count and persisted ordinals 1..saved_ordinal in order |
| RunStore.FinishKeepsInv | src/humanwire/cloud_store.py:712-737 | a finish binds exactly what it was given, frees the slot, and the lost-slot check never fires |
| RunStore.ClaimedRunInv | src/humanwire/cloud_store.py:602-618 | the copy made by a first claim, never validated, satisfies the validator and has a higher version |
| RunStore.RecoveredRunInv | src/humanwire/cloud_store.py:631-650 | the copy made by a recovery satisfies the validator, and its record extends the timeline by one |
| RunStore.RenewedRunInv | src/humanwire/cloud_store.py:669-683 | the copy made by a renewal satisfies the validator and has a higher version |
| RunStore.AppendedRunInv | src/humanwire/cloud_store.py:362-379 | the copy made by an append satisfies the validator, and its record extends the timeline by one |
| RunStore.FinishedRunInv | src/humanwire/cloud_store.py:382-402 | the copy made by a finish satisfies the validator and has a higher version |
| RunStore.DispatchFailedRunInv | src/humanwire/cloud_store.py:405-421 | the copy made by a failed dispatch satisfies the validator and has a higher version |
| RunStore.RecordKeepsRunInv | src/humanwire/cloud_store.py:354-379 | storing the next record together with the metadata that counts it keeps the run valid and extends the record list by one |
| RunStore.PutKeepsInv | src/humanwire/cloud_store.py:362-421 | storing a run back keeps at most one run live and the slot naming exactly it |
| RunStore.OwnerCallEffect | src/humanwire/cloud_store.py:342-346 | an owner call changes the store if and only if it holds a live claim and brings an acceptable lease or record |
| RunStore.AppendReplayIsInert | src/humanwire/cloud_store.py:685-710 | a record once stored can be appended again in every later state by anyone without effect |
| RunStore.FinishReplayIsInert | src/humanwire/cloud_store.py:712-737 | after a finish, an identical finish is inert and a different one refused in every later state |
| InMemoryRunRepository.Repository.CreateRun | src/humanwire/cloud_store.py:509-532 | over the dictionaries: a queued run is stored and takes the slot, or is refused while a run is active or the alias is taken, exactly as the specified step |
| InMemoryRunRepository.Repository.FailQueuedDispatch | src/humanwire/cloud_store.py:551-575 | over the dictionaries: a queued run fails and frees the slot, a failed one answers false, exactly as the specified step |
| InMemoryRunRepository.Repository.ClaimRun | src/humanwire/cloud_store.py:577-650 | over the dictionaries: claim, duplicate, conflict, terminal or recovery with its record, exactly as the specified step |
| InMemoryRunRepository.Repository.RenewClaim | src/humanwire/cloud_store.py:652-683 | over the dictionaries: a live claim gets a new lease end, any other answers false, exactly as the specified step |
| InMemoryRunRepository.Repository.AppendTimeline | src/humanwire/cloud_store.py:685-710 | over the dictionaries: record and metadata are stored together, a replay compared by hash, exactly as the specified step |
| InMemoryRunRepository.Repository.FinishRun | src/humanwire/cloud_store.py:712-737 | over the dictionaries: binding and slot change together, a replay compared with the stored binding, exactly as the specified step |
| InMemoryRunRepository.Repository.LoadSnapshot | src/humanwire/cloud_store.py:542-549 | sorting the stored ordinals and rebuilding gives the specified snapshot, and the prefix check never fails |
| CloudModel.InertRecordKeepsSound | src/humanwire/cloud_store.py:424-492 | an inert record that repeats the current stage keeps the stored history valid |
| Publication.CutConversations | src/humanwire/cloud_progress.py:133-162 | the records cut from a snapshot at an ordinal hold exactly its conversations up to that ordinal, in order |
| Publication.CutIsSound | src/humanwire/cloud_progress.py:133-162 | every cut of a valid snapshot is itself a valid history |
| Publication.FullCutRebuilds | src/humanwire/cloud_store.py:424-492 | records cut from a whole snapshot rebuild its events, conversations, data points and lifecycle |
| Publication.ChecksGiveCut | src/humanwire/cloud_progress.py:127-136 | the prefix and immutability checks establish that the stored records are the candidate cut at their count |
| Publication.AcceptedPlanIsCut | src/humanwire/cloud_progress.py:110-150 | an accepted publication starts right after a stored cut of the candidate and ends inside the candidate |
| Publication.HeldBackCutIsShared | src/humanwire/cloud_progress.py:137-150 | what is held back makes the stored cut of one candidate the cut of every later one |
| Publication.GrowingIsNeverRefusedAsImmutable | src/humanwire/cloud_progress.py:133-151 | for growing candidates neither the immutability nor the watermark refusal can fire |
| Publication.ImmutableExactly | src/humanwire/cloud_progress.py:127-136 | a candidate that may follow the rebuilt history is refused as immutable if and only if the stored records are not its own cut |
| Publication.RetoldCandidateIsImmutable | src/humanwire/cloud_progress.py:127-136 | an input of it: one publication, then a candidate that tells a new conversation about the published event |
| ProgressPublisher.AppendNextOfCut | src/humanwire/cloud_progress.py:152-163 | appending the next record of a stored cut extends the cut, or is refused by the claim alone |
| ProgressPublisher.FinishOfFullCut | src/humanwire/cloud_progress.py:165-204 | finishing after the whole snapshot is durable makes a cold rebuild equal the bound snapshot |
| ProgressPublisher.BoundExportsMatch | src/humanwire/cloud_progress.py:206-221 | a run bound to a snapshot and rebuilt as it regenerates exactly the bound exports |
| ProgressPublisher.CloudProgressPublisher.Publish | src/humanwire/cloud_progress.py:110-163 | a publication leaves nothing, or a cut of the candidate; it succeeds if and only if the decision allows it and the claim is live at every append, and then reaches the durable ordinal |
| ProgressPublisher.CloudProgressPublisher.AppendAll | src/humanwire/cloud_progress.py:152-163 | the append loop stores one cut record per turn and stops at the first refusal |
| ProgressPublisher.CloudProgressPublisher.BindCompletion | src/humanwire/cloud_progress.py:165-189 | a completion returns if and only if the snapshot is complete, the stored history leads to it and the claim is live at every append and the finish (or the same binding is stored); the run is then COMPLETE, rebuilt cold into exactly the bound snapshot and its exports, and an error leaves the claim |
| ProgressPublisher.CloudProgressPublisher.BindFailure | src/humanwire/cloud_progress.py:191-204 | the same for a failure: the exact condition under which it returns, and then the run is FAILED and rebuilt cold into the bound snapshot |
| CloudSystem.StepKeeps | src/humanwire/cloud_worker.py:233-400 | every action of every delivery, creation and dispatch failure keeps the world invariant |
| CloudSystem.CheckedHolder | src/humanwire/cloud_progress.py:110-151 | for the delivery that holds the claim a publication decision keeps the stored timeline a cut of its candidate |
| CloudSystem.ClaimKeeps | src/humanwire/cloud_worker.py:236-268 | both claims, with any clock and any earlier deliveries, keep the world invariant |
| CloudSystem.HeartbeatKeeps | src/humanwire/cloud_worker.py:320-337 | a heartbeat at any time keeps the world invariant |
| CloudSystem.FinishKeeps | src/humanwire/cloud_worker.py:376-392 | the last write of a delivery keeps the world invariant |
| CloudSafety.RunsOnlyEvolve | src/humanwire/cloud_store.py:495-737 | over every interleaving versions only grow, stored records stay, terminal runs freeze |
| CloudSafety.ColdReadsNeverFail | src/humanwire/cloud_store.py:542-549 | in every reachable world every run can be rebuilt |
| CloudSafety.CompletionIsFaithful | src/humanwire/cloud_worker.py:233-400 | a COMPLETE run was finished by the delivery whose claim returned CLAIMED, was never recovered, and rebuilds into exactly the bound snapshot and exports |
| CloudSafety.OnlyTheClaimantCompletes | src/humanwire/cloud_worker.py:356-392 | the one action that can complete a run is a completion bind by the delivery that claimed it and still holds the claim |
| CloudSafety.RecoveredRunsNeverComplete | src/humanwire/cloud_worker.py:272-297 | a run once recovered can only end FAILED, whatever happens later |
| CloudSafety.SupersededForEver | src/humanwire/cloud_store.py:342-346 | an owner that lost its claim never has any effect again, whatever its clock |
| CloudSafety.RecoveryFences | src/humanwire/cloud_store.py:613-650 | a successful recovery claim supersedes the holder before it |
| CloudSafety.GrowingPublisherIsExact | src/humanwire/cloud_progress.py:110-163 | while a growing publisher holds the claim the durable timeline is its last attempted candidate cut at one ordinal, attempts refused at the check included, and a candidate that follows it is never refused as immutable |
| CloudLiveness.OtherIsInert | src/humanwire/cloud_store.py:577-737 | while a delivery holds the claim, no action of anybody else changes the store or that delivery, as long as their claims read clocks before the lease end |
| CloudLiveness.RecoveryIsGrantedExactly | src/humanwire/cloud_store.py:613-650 | a recovery claim of a running run is granted if and only if the lease has run out and nothing was appended since its record was prepared |
| CloudLiveness.RecoveryEnds | src/humanwire/cloud_worker.py:272-297 | in every interleaving a recovering delivery that loads, binds and finishes before its lease end leaves the run FAILED, rebuilt as the fixed failure of what was stored, and the slot free of it for ever |
| CloudLiveness.ExpiredRunIsEnded | src/humanwire/cloud_worker.py:246-297 | in every interleaving a crash-free delivery whose recovery claim meets an expired lease and an unchanged run ends that run FAILED with the slot free of it |
| CloudLiveness.HolderEnds | src/humanwire/cloud_worker.py:376-392 | in every interleaving a growing holder that binds its last snapshot, each append and the finish before its lease end, ends the run as exactly that snapshot |
| CloudLeases.GrantKeepsLease | src/humanwire/cloud_store.py:605-650 | a grant to the holder itself or after the stored lease ran out keeps lease intervals of different owners apart |
| CloudLeases.LeasesNeverOverlap | src/humanwire/cloud_store.py:577-683 | if committed claims and renewals carry non-decreasing clocks, lease intervals of different owners never overlap, and the stored lease is the last one granted |
| Execution.HeldCutAccepts | src/humanwire/cloud_progress.py:110-151 | a valid candidate that follows the one whose held-back cut is stored is accepted up to its durable ordinal, and refused exactly if it claims not to have started |
| Execution.PublishOnShow | src/humanwire/studio_projection.py:663-669 | under a live claim the candidate alone decides whether it is shown, and what was shown last stays the durable cut |
| CloudWorker.RecoveredIsBindable | src/humanwire/cloud_worker.py:272-285 | a run readable before its recovery is readable after it, and its fixed failure has nothing left to append |
| CloudWorker.RecoveryEndsExactly | src/humanwire/cloud_worker.py:272-285 | behind a recovery the run is exactly as readable as before it, and its fixed failure can be bound if and only if the new lease lasts |
| CloudWorker.CloudRunWorker.Handle | src/humanwire/cloud_worker.py:233-400 | what a delivery that nobody interleaves does, decided by its first claim: refused, conflicting, already settled, executed or recovered, with the exact outcome of the last two |
| CloudWorker.CloudRunWorker.Recover | src/humanwire/cloud_worker.py:246-297 | after the lease ran out the run ends FAILED with the slot free if and only if it can be read and the clock stays within the new lease; otherwise it stays claimed for a retry |
| CloudWorker.CloudRunWorker.Execute | src/humanwire/cloud_worker.py:299-400 | an accepted execution leaves the run terminal with the slot free, a retry leaves it claimed; when all clock readings fall within one lease it is accepted if and only if what the runner showed can be bound, and the run rebuilds into exactly that |
| CloudWorker.StudioProgressStore.Publish | src/humanwire/studio_projection.py:663-669 | a candidate is published first and remembered only if that succeeded, with the exact condition of success |
| CloudWorker.StudioProgressStore.PublishFailed | src/humanwire/studio_projection.py:675-697 | an unfinished snapshot becomes the one fixed failure if its publication succeeds, a final one stays |
| FirestoreModel.DigitsRoundTrip | src/humanwire/cloud_store.py:289-293 | decoding the zero-padded digits of an ordinal gives it back |
| FirestoreModel.DocumentIdIsInjective | src/humanwire/cloud_store.py:289-293 | different ordinals have different timeline documents |
| FirestoreRefinement.CreateSimulates | src/humanwire/cloud_store.py:781-822 | the transaction has the effect and answer of the in-memory step |
| FirestoreRefinement.FailSimulates | src/humanwire/cloud_store.py:842-882 | the transaction has the effect and answer of the in-memory step |
| FirestoreRefinement.ClaimSimulates | src/humanwire/cloud_store.py:884-1004 | the transaction has the effect and answer of the in-memory step, its recovery document included |
| FirestoreRefinement.RenewSimulates | src/humanwire/cloud_store.py:1006-1063 | the transaction has the effect of the in-memory step; it refuses only where that step has no effect |
| FirestoreRefinement.AppendSimulates | src/humanwire/cloud_store.py:1065-1123 | the transaction has the effect of the in-memory step for every ordinal with a document name, and refuses the others |
| FirestoreRefinement.FinishSimulates | src/humanwire/cloud_store.py:1125-1164 | the transaction has the effect and answer of the in-memory step |
| FirestoreRefinement.RunsRefine | src/humanwire/cloud_store.py:757-1164 | any run of transactions, with any server clock, refines the same run of in-memory steps |
| FirestoreRefinement.ActiveDocumentIsExact | src/humanwire/cloud_store.py:781-1164 | the active document exists exactly when a live run does, names it, and carries its version and state; every run document passes its validator on reading |
| FirestoreRefinement.RowsAreRecords | src/humanwire/cloud_store.py:831-840 | rows ordered by ordinal are exactly the stored records |
| FirestoreRefinement.TornReadFailsExactly | src/humanwire/cloud_store.py:831-840 | the two-step read fails its prefix check if and only if a record was stored between the steps, and otherwise returns the first state |
| FirestoreRefinement.TornReadHappens | src/humanwire/cloud_store.py:831-840 | a concrete run in which that read fails |
| DecisionAuthority.LogKeepsNumbered | src/humanwire/decisionos_store.py:1586-1603 | appending an event keeps the ids exactly 1 to the sequence, each used once |
| DecisionAuthority.ActivateKeeps | src/humanwire/decisionos_store.py:840-864 | activating a member keeps owners, the replayed log and the numbering |
| DecisionAuthority.CreateOrganizationKeeps | src/humanwire/decisionos_store.py:596-628 | founding keeps owners, the replayed log and the numbering |
| DecisionAuthority.UpdateMemberRoleKeeps | src/humanwire/decisionos_store.py:1480-1506 | a role change sets exactly the asked role of one active member or nothing, and keeps an active owner, the replayed log and the numbering |
| DecisionAuthority.SuspendMemberKeeps | src/humanwire/decisionos_store.py:1564-1584 | suspension ends exactly one active membership or nothing, and keeps an active owner, the replayed log and the numbering |
| DecisionAuthority.SuspendAllKeeps | src/humanwire/decisionos_store.py:1390-1431 | a batch of suspensions suspends exactly the listed members and keeps all of it |
| DecisionAuthority.ChangeGraphMembershipKeeps | src/humanwire/decisionos_store.py:1350-1452 | bulk removal suspends exactly the removed members, keeps the carried ones active and one owner active, or changes nothing |
| DecisionInvitations.RelationNeverRaises | src/humanwire/decisionos_store.py:661-748 | scan, active index and token index agree, so the lookup returns the unique open record or none and never raises |
| DecisionInvitations.OneMatchPerDigest | src/humanwire/decisionos_store.py:806-838 | a stored digest belongs to exactly one invitation, of the kind and id its index entry says |
| DecisionInvitations.GenericTokenOpens | src/humanwire/decisionos_store.py:806-838 | a generic token opens its invitation if and only if that is open and unexpired |
| DecisionInvitations.SubjectTokenOpens | src/humanwire/decisionos_store.py:1176-1227 | a subject token opens its invitation for a new member if and only if that is open, delivered and unexpired |
| DecisionInvitations.ChainIsBounded | src/humanwire/decisionos_store.py:145-164 | retry chains run through revoked records of the same organization, subject and role, one number lower each, down to 0, at most 101 long |
| DecisionInvitations.CreateInvitationKeeps | src/humanwire/decisionos_store.py:750-804 | issuing a generic invitation keeps all indexes in agreement |
| DecisionInvitations.AcceptInvitationKeeps | src/humanwire/decisionos_store.py:806-864 | accepting a generic invitation keeps all indexes in agreement |
| DecisionInvitations.DeliveryKeeps | src/humanwire/decisionos_store.py:1094-1174 | both delivery reports keep all indexes in agreement |
| DecisionInvitations.AcceptSubjectKeeps | src/humanwire/decisionos_store.py:1176-1311 | accepting a subject invitation keeps all indexes in agreement |
| DecisionBatch.IssueOneKeeps | src/humanwire/decisionos_store.py:940-1018 | one turn of a batch keeps the indexes and touches no other subject |
| DecisionBatch.DecisionIsLocal | src/humanwire/decisionos_store.py:940-1018 | a turn decides the same from the stored and from the updated dictionaries |
| DecisionBatch.CreateSubjectInvitationsKeeps | src/humanwire/decisionos_store.py:901-1092 | a batch keeps the indexes, its grants line up with the subjects, and a refused one changes nothing |
| DecisionBatch.BatchIsOneByOne | src/humanwire/decisionos_store.py:901-1092 | a batch succeeds exactly when one call per subject does, with the same state and grants |
| DecisionRuns.CallKeepsInv | src/humanwire/decisionos_store.py:573-1603 | every call with any arguments keeps the invariant of authority and invitations |
| DecisionRuns.LogRebuildsMemberships | src/humanwire/decisionos_store.py:1586-1603 | in every run the replayed log of an organization is its membership state, activations and suspensions alternate, and event ids are exactly 1 to the sequence |
| DecisionRuns.OrganizationsStayOwned | src/humanwire/decisionos_store.py:1554-1584 | in every run every organization has an active owner |
| DecisionRuns.OnlyOwnersGrant | src/humanwire/decisionos_store.py:1480-1584 | only founding, for the founder, or an active owner of the organization grants OWNER or ADMIN or alters an active owner |
| DecisionRuns.AcceptedRoleIsInvited | src/humanwire/decisionos_store.py:806-864 | an accepted generic token had one open unexpired invitation, gives its bearer exactly the invited role, changes no other member, and can never be accepted again |
| DecisionRuns.JoinedRoleIsInvited | src/humanwire/decisionos_store.py:1176-1311 | an accepted subject token had one open, delivered, unexpired invitation, gives its bearer exactly the invited role, and can never be accepted again |
| DecisionRuns.RecordsMove | src/humanwire/decisionos_store.py:933-1174 | every call moves a subject record along the delivery path only; none is revoked while sending and a closed one never moves |
| DecisionRuns.AcceptedPassedDelivery | src/humanwire/decisionos_store.py:1094-1227 | every accepted subject invitation was pending, then sending, then delivered |
| DecisionRuns.ReachableInvitationsAgree | src/humanwire/decisionos_store.py:661-748 | in every run the lookup never raises and chains are bounded |
| InMemoryDecisionRepository.Repository.Publish | src/humanwire/decisionos_store.py:243-261 | every prepared reference is set, or everything is as before, wherever a setter rejects |
| InMemoryDecisionRepository.Repository.Rollback | src/humanwire/decisionos_store.py:257-260 | restoring every prior value, also of references never replaced, gives the first state back |
| InMemoryDecisionRepository.Repository.PublishWith | src/humanwire/decisionos_store.py:1053-1092 | the caller's replacements and the repository's own take effect together or not at all |
| InMemoryDecisionRepository.Repository.CreateOrganization | src/humanwire/decisionos_store.py:596-628 | over the dictionaries: organization, founding owner and both events at once, exactly as the specified step |
| InMemoryDecisionRepository.Repository.UpdateMemberRole | src/humanwire/decisionos_store.py:1480-1506 | over the dictionaries: the role with its event, behind the owner guards, exactly as the specified step |
| InMemoryDecisionRepository.Repository.SuspendMember | src/humanwire/decisionos_store.py:1564-1584 | over the dictionaries: the suspension with its event, behind the last-owner guard, exactly as the specified step |
| InMemoryDecisionRepository.Repository.ChangeGraphMembership | src/humanwire/decisionos_store.py:1350-1452 | the specified step, or no change at all in this repository and the graph; it succeeds exactly when the step and the publication do |
| InMemoryDecisionRepository.Repository.PrepareSuspensions | src/humanwire/decisionos_store.py:1390-1431 | the loop over leaving members prepares exactly the replacement values of the specified step |
| InMemoryDecisionRepository.Repository.CreateWorkspace | src/humanwire/decisionos_store.py:1313-1338 | over the dictionaries: a new workspace with its event, exactly as the specified step |
| InMemoryDecisionRepository.Repository.CreateInvitation | src/humanwire/decisionos_store.py:750-804 | over the dictionaries: record, token index and event of a fresh generic invitation, exactly as the specified step |
| InMemoryDecisionRepository.Repository.AcceptInvitation | src/humanwire/decisionos_store.py:806-864 | over the dictionaries: the match by scan and index, then membership, record, index and events, exactly as the specified step |
| InMemoryDecisionRepository.Repository.InitializeSubjectInvitationSchema | src/humanwire/decisionos_store.py:866-890 | over the dictionaries: the flag, unless the graph or the stored records already know subjects, exactly as the specified step |
| InMemoryDecisionRepository.Repository.PrepareInvitations | src/humanwire/decisionos_store.py:924-1018 | the batch loop, filling copies of the dictionaries, computes exactly the specified work |
| InMemoryDecisionRepository.Repository.CreateSubjectInvitations | src/humanwire/decisionos_store.py:901-1092 | the specified step, or no change at all in this repository and the graph; it succeeds exactly when the step does and, if anything was created, the publication does |
| InMemoryDecisionRepository.Repository.PublishBatch | src/humanwire/decisionos_store.py:1053-1092 | a prepared batch and the caller's replacements take effect together, exactly when every prior value is current and no setter rejects |
| InMemoryDecisionRepository.Repository.BeginSubjectInvitationDelivery | src/humanwire/decisionos_store.py:1094-1128 | over the dictionaries: a pending record of a matching grant starts sending, exactly as the specified step |
| InMemoryDecisionRepository.Repository.RecordSubjectInvitationDelivery | src/humanwire/decisionos_store.py:1130-1174 | over the dictionaries: a sending record of a matching grant is delivered or failed, exactly as the specified step |
| InMemoryDecisionRepository.Repository.AcceptSubjectInvitation | src/humanwire/decisionos_store.py:1176-1311 | the specified step, or no change at all in this repository and the graph; it succeeds exactly when the step and the publication do |
| AlignmentTheorems.SortKeeps | src/humanwire/alignment.py:182 | sorting assignments by id keeps every count and member and, per id, their order |
| AlignmentTheorems.BlocksExactly | src/humanwire/alignment.py:78-149 | a contribution blocks if and only if it is required and not complete, or it rejects or asks for changes |
| AlignmentTheorems.NoIssueIsComplete | src/humanwire/alignment.py:322-386 | a planned required person without an issue has exactly one valid, complete contribution |
| AlignmentTheorems.AlignedIffNothingBlocks | src/humanwire/alignment.py:171-303 | with contributions a report is aligned if and only if none of its issues blocks |
| AlignmentTheorems.BindingIsUnique | src/humanwire/alignment.py:515-542 | a bound review is the only valid review assignment of its decision |
| AlignmentTheorems.AlignedIsWitnessed | src/humanwire/alignment.py:544-589 | an aligned report has, per required decision, an approval in the one bound, complete review assignment or confirmed evidence of a valid complete interview, and no bound review rejects or asks for changes |
| AlignmentTheorems.DecisionIssuesMean | src/humanwire/alignment.py:407-426 | the evidence of a decision raises no issue if and only if nothing is disputed or hard, deadlines agree, no request exceeds a limit and no facts conflict |
| AlignmentTheorems.AlignedIsPeaceful | src/humanwire/alignment.py:305-426 | an aligned report has such evidence for every required decision, and no required assignment of a person the plan does not require |
| AlignmentTheorems.NoReviewObjects | src/humanwire/alignment.py:407-462 | a valid bound review that rejects or asks for changes leaves a blocking issue, required or not |
| AlignmentTheorems.ProjectionsOfMasked | src/humanwire/evidence.py:290-317 | both projections of evidence ignore what private items say |
| AlignmentTheorems.PrivateEvidenceStaysPrivate | src/humanwire/alignment.py:171-303 | evidence lists that differ only in statement, resource, deadline, channel or source of private items give the same report |
| AlignmentTheorems.ModelOnlyAdvises | src/humanwire/alignment.py:800-860 | for every model output the hybrid report keeps the issues, coverage, agreements and verdict of the deterministic one and adds only non-blocking advice |
| AlignmentTheorems.SentIsUsable | src/humanwire/alignment.py:811-835 | filtering the evidence before the analysis, over unsorted assignments, changes nothing the analysis uses |
| AlignmentTheorems.ResourceConflictMeans | src/humanwire/alignment.py:653-680 | the comparison of the greatest request with the least limit fires if and only if some request exceeds some limit |
| EvidenceGrowth.ConflictAfterExactly | src/humanwire/alignment.py:616-628 | facts conflict once one more has joined if and only if the new one is dated, counted or phrased as all others are and some other differs from it |
| EvidenceGrowth.ConflictSurvivesExactly | src/humanwire/alignment.py:616-628 | a conflict survives one more fact if and only if that fact carries a comparison of dates, quantities or polarity on, joining or starting a difference |
| EvidenceGrowth.MoreEvidenceKeepsIssuesExactly | src/humanwire/alignment.py:407-426 | one more item keeps every kind of issue of its decision, if and only if it is no fact that ends a contradiction between facts |
| EvidenceGrowth.UndatedFactHidesConflict | src/humanwire/alignment.py:603-628 | an input of it: two different dates contradict each other, and with one undated fact beside them the decision has no issue |
| AlignmentEngine.Engine.DeterministicIssueList | src/humanwire/alignment.py:305-426 | the four loops append exactly the specified issues in order |
| AlignmentEngine.Engine.AnalyzeMandate | src/humanwire/alignment.py:171-303 | the analysis with its appended issues is exactly the specified report |
| AlignmentEngine.Engine.AppendGaps | src/humanwire/alignment.py:247-257 | one gap is appended per required decision that is not covered |
| Negotiation.LatestIsLast | src/humanwire/alignment.py:1084-1088 | the dictionary of responses holds, per person, the last response received |
| Negotiation.CommitKeeps | src/humanwire/alignment.py:966-1000 | every commit, however stale its check, keeps the stored state telling the stored answers |
| Negotiation.RunKeeps | src/humanwire/alignment.py:927-1008 | over every interleaving of checks and transactions the invariant holds, answers are never lost and closed rounds never change |
| Negotiation.StatesMeanAnswers | src/humanwire/alignment.py:1010-1017 | with a required respondent: waiting exactly while someone has not answered, aligned exactly when every latest answer accepts, unresolved otherwise, and evaluating agrees in both rounds |
| Negotiation.StateAgreesWithOutcomeExactly | src/humanwire/alignment.py:1010-1017 | stored state and evaluated outcome agree on alignment if and only if someone is required to respond |
| Negotiation.NobodyRequiredWaits | src/humanwire/alignment.py:1010-1017 | an input of the disagreement: a new proposal without required respondents waits while its evaluation says aligned |
| Negotiation.ReplayIsInert | src/humanwire/alignment.py:936-945 | recording a source message again returns the first response and changes nothing in every later state |
| Negotiation.NegotiationCoordinator.CommitResponse | src/humanwire/alignment.py:966-1000 | the transaction is exactly the specified commit and keeps Valid |
| Negotiation.NegotiationCoordinator.Respond | src/humanwire/alignment.py:927-1008 | check and transaction together are exactly the specified step and keep Valid |
| OutreachRuns.NewAssignmentIsOk | src/humanwire/engagements.py:99-147 | a new assignment satisfies the invariant that every run starts from |
| OutreachRuns.DueIsSound | src/humanwire/engagements.py:289-413 | the due step of a contacted assignment never raises; it acts if and only if the answer is overdue and its next send, if any, has a registered route, and then reminds, takes the one alternate route or ends the assignment |
| OutreachRuns.DueRaisesExactly | src/humanwire/engagements.py:289-413 | the due step raises if and only if it is due, has a route and the assignment was never contacted |
| OutreachRuns.NewAssignmentRaises | src/humanwire/engagements.py:289-413 | an input of it: a new assignment with a route and no planned time |
| OutreachRuns.SuccessIsSound | src/humanwire/engagements.py:703-785 | a success report never raises, acts if and only if it concerns the current unresolved attempt on a registered route, records its delivery, and completes exactly the informing engagements |
| OutreachRuns.FailureIsSound | src/humanwire/engagements.py:787-944 | a failure report never raises, acts if and only if it concerns the current unresolved attempt and the next route, if any, is registered, and moves to that route or ends the assignment |
| OutreachRuns.AnswerIsSound | src/humanwire/engagements.py:415-687 | an answer never raises and completes the engagement if and only if it is authentic, new, and the engagement is a started, unfinished one that asks for answers |
| OutreachRuns.StartIsSound | src/humanwire/engagements.py:99-200 | the initial contact is prepared if and only if the engagement is consistent, not yet contacted and its first route is registered; it is attempt 1 on route 0 |
| OutreachRuns.CommitKeeps | src/humanwire/engagements.py:984-1036 | a transaction that takes effect found its own snapshot, keeps the shape of attempts and routes, and an escalation has less left to do |
| OutreachRuns.CommitStartKeeps | src/humanwire/engagements.py:202-216 | a start saved over a re-read snapshot takes effect at most once |
| OutreachRuns.EscalationEnds | src/humanwire/engagements.py:289-413 | in every interleaving at most routes + 1 due and failure steps are ever committed, and an ended assignment is frozen |
| OutreachRuns.DueRunEnds | src/humanwire/engagements.py:289-413 | due steps that nobody races, on registered routes, end a waiting assignment UNREACHABLE within its three turns: reminder, alternate, end |
| OutreachRuns.SendsAndResultsAreBounded | src/humanwire/engagements.py:703-944 | at most routes + 1 sends, all with distinct delivery ids, and at most one recorded result per delivery id |
| OutreachRuns.ReportsNeverRaise | src/humanwire/state_machine.py:213-253 | in every reachable state no report and no answer is an invalid transition |
| EngagementCoordinator.Coordinator.SaveAssignmentEvents | src/humanwire/engagements.py:984-1036 | compare-and-save with every event appended once is exactly the specified commit, with rollback on a duplicate |
| EngagementCoordinator.Coordinator.ProcessDueAssignment | src/humanwire/engagements.py:289-413 | whatever others save in between, exactly the draft of its own snapshot is committed over what they left, saved if and only if they left the snapshot; a saved step has less left to do |
| EngagementCoordinator.AnswerIsRecordedExactly | src/humanwire/engagements.py:437-501 | against any others an answer is recorded if and only if the mandate is live and one of the tries meets a waiting assignment nobody changes; the engagement is complete then |
| EngagementCoordinator.Coordinator.RecordAnswer | src/humanwire/engagements.py:437-501 | the loop of at most three tries is exactly the specified one, so it records under exactly that condition |
| DirectoryModel.GroundedIsAcyclic | src/humanwire/directory.py:183-195 | if every walk to the top ends there is no reporting cycle |
| DirectoryModel.ClimbIsWholeChain | src/humanwire/directory.py:131-143 | in a well-formed hierarchy neither guard of the walk fires and it lists exactly all managers |
| DirectoryModel.DirectionsMirror | src/humanwire/directory.py:88-96 | DOWNWARD(a, b) if and only if UPWARD(b, a), LATERAL is symmetric, and DOWNWARD is managing at some distance |
| DirectoryModel.DownwardTransitive | src/humanwire/directory.py:88-96 | DOWNWARD is transitive |
| DirectoryModel.PathIsDistance | src/humanwire/directory.py:145-162 | the length of the path to a manager is the one reporting distance, 0 when there is none |
| DirectoryModel.TargetsAreJudgedExactly | src/humanwire/directory.py:98-119 | a target is accepted if and only if references and identifiers resolve and direction, department and reporting distance are allowed |
| DirectoryModel.ReresolvesExactly | src/humanwire/directory.py:98-108 | a resolved person resolves again by identifier if and only if nobody else answers to that identifier |
| DirectoryModel.ReresolutionCanFail | src/humanwire/directory.py:98-108 | a well-formed directory in which an alias makes the second resolution ambiguous |
| OrganizationDirectory.Directory.ValidateDocument | src/humanwire/directory.py:169-195 | validation ends, passes exactly the well-formed documents, and every refusal names something true of the document |
| OrganizationDirectory.JudgedIsExact | src/humanwire/directory.py:169-195 | acceptance is equivalent to unique people and policies, known managers and no cycle |
| OrganizationDirectory.Directory.WalkUp | src/humanwire/directory.py:183-195 | one person's walk ends at the top, at an unknown manager, or at a repetition that proves a cycle |
| OrganizationDirectory.Directory.ManagerChainIds | src/humanwire/directory.py:131-143 | the guarded loop collects exactly the members of the chain |
| OrganizationDirectory.Directory.ManagerChainTo | src/humanwire/directory.py:145-162 | the guarded loop returns exactly the path to the target |
| OrganizationDirectory.Directory.ClassifyDirection | src/humanwire/directory.py:88-96 | the two walks classify exactly as specified |
| OrganizationDirectory.Directory.CheckTarget | src/humanwire/directory.py:98-119 | the checks in order are exactly the specified judgement |

## Left out

- Firestore, Pub/Sub, Firebase, SQL, message gateway and language model clients: only the atomic transaction bodies are modelled.
- Threads and wall clocks: a heartbeat is an action, a crash is stopping, `now` is an input; the class model of one delivery runs its heartbeats between publications.
- Transport retries and automatic re-execution of a conflicting document transaction: a transaction commits once or not at all.
- Document transactions are functions on the database value; updating documents in place is not modelled.
- Validation of aliases, keys, tokens and identifiers by pattern, JSON and timezone handling, hash bytes.
- Graph nodes and edges, target dates, schema versions, meeting fields and the product-safety scan of snapshots; `CanFollow` keeps alias, request, events, conversations, data points and digests.
- Export contents: an export digest is an opaque function of the whole snapshot.
- The document-store version of the organization repository, its generic cutover and provenance migration.
- Organization listing, workspace reads, audit listing and context loading: plain reads.
- The caller's mutation in organization calls: it may replace an organization graph but never this repository.
- One clock reading per organization call; HumanWire reads its clock once per event of a bulk removal.
- AlignmentTheorems.AlignedIffNothingBlocks: assumes that assignment identifiers are distinct, as the database key makes them.
- Issue identifiers and mandate identifiers of issues; the alignment of text patterns with real sentences.
- Draft wording of proposals and its advisory model call; opening the second round.
- Proposal responses that collide on their unique key: transactions commit one after the other here, so the later one finds the earlier response inside its own transaction.
- CloudWorker.CloudRunWorker.Handle: one delivery from its first to its last call without others; what others can do in between is `CloudLiveness`.
- CloudWorker.CloudRunWorker.Execute: the exact outcome is stated for readings within one lease of each other; beyond it a renewal in time decides, and only the safe outcomes are stated.
- Interview engagements in outreach (quick responses and structured interviews): their steps live in another component.
- EngagementCoordinator.Coordinator.RecordAnswer: the token, sender and route checks of an inbound message are one authenticity flag, and decision and evidence rows are not stored.
- The dispatch outbox: whether a delivery claim is still current is a free input of each transaction.
- Failure reasons and owner notices of ended assignments; other callers of the assignment row.
- Casefolding of directory references, sender lookup and route ordering.
- Web applications, authentication, configuration, video scripts, demo data and council components.
