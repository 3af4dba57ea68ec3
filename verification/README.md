# A replicated OR-Set with delta anti-entropy and stability-based collection

The system replicates an observed-remove set between replicas that gossip deltas, and lets
designated GC replicas agree, through a shared object store, on a frontier below which
tombstones may be dropped. This project models the set, its dotted version vectors, the
engine, the GC coordinator and the store, puts any number of replicas into one transition
system, and proves what every run of it keeps.

## How it is laid out

| layer | files |
|---|---|
| clocks and the set, as values and as the objects that are mutated | `Clocks`, `DotVersionVectors`, `OrSets` |
| what a set ought to be, said from a history of events and a clock alone | `Histories` |
| the stable timestamp | `StableTimestamps` |
| one replica, the store and the wire as values, and what each function means entry by entry | `Replicas`, `Laws` |
| coordinator, store and engine as objects | `Coordinators`, `Engines` |
| all replicas, the network and the store as a transition system | `Systems` |
| clocks, rows and coverage, kept by every step | `Invariants`, `ClockSteps` |
| frontiers, kept by every step | `Frontiers`, `FrontierSteps` |
| exact sets, kept under the in-flight hypothesis | `Exactness`, `ExactSteps` |
| epoch numbers, kept under the claim hypothesis | `Protocol` |
| the three invariants over runs, and the main results | `Theorems`, `Results`, `Exchanges`, `Learning`, `Joiners`, `Claims` |
| the objects' methods against the system's steps | `Executions`, `Attempts`, `Handling` |
| what happens without the hypotheses, in runs that are spelled out | `Counterexamples` |

Each object's methods are proved equal to functions on values; the transition system takes
its steps with those same functions. A step is one handled request, one storage operation
of a GC or of a bootstrap, or a loss. A sent message stays in the network after delivery,
so it may arrive late, twice, out of order or never. Registrations fall anywhere between
the storage operations of a running GC; any number of replicas may initiate a GC at once.

The central notion is `Histories.Exact`: a replica's live pairs are the adds its clock
covers that no remove event its clock covers has removed; every tombstone is justified by
such a remove; and the only removes without a tombstone are those under a collected
frontier.

## Hypotheses

The code does not enforce these. The first two are built into the transition system.

1. Node ids are not reused, and no replica restarts (`Register` needs a new id).
2. Nobody departs. Replicas may join at any time. The coordinator's methods do handle
   departed nodes (`ForgetNodes`, `Obsolete`); the system theorems have none.
3. *In flight* (`Systems.InFlightMet`). When a replica collects under a frontier, every
   delta in flight to it was built by a sender whose clock covered that frontier or was
   empty. `Histories.InFlightConditionIsWeakest` shows that no weaker condition on clocks
   will do.
4. *Claims* (`Systems.ClaimMet`). A claim of epoch n succeeds only while epoch n - 1 is
   stored.

A run is `IsExecution(steps)` under neither, and `IsRun(steps, h)` under those `h` names.

| results about | hypotheses used |
|---|---|
| clocks, dots, matrix rows and their growth, coverage, what is collected and that nobody sees it, suppressed replies, exclusive intents | 1 and 2 |
| frontiers: every one collected under or committed lies below every active replica's clock for ever, and a snapshot that can be adopted covers them all | 1 and 2 |
| which clocks an exchange leaves behind | 1 and 2 |
| exact sets: causal completeness, no resurrection, convergence, minimal deltas, snapshots, exchanges | 1, 2 and 3 |
| epoch numbers: one committer, one epoch per commit, joiner safety, which joiners can finish | 1, 2 and 4 |

So a stale claim spoils the numbering and no more: it can neither bring a removed element
back nor put a frontier above anybody's clock. `Frontiers` gives the reason.

## What came out

- *An older delta resurrects an element.* Adds are checked on arrival against tombstones
  only (`src/crdt/or_set.rs:147-154`). `Counterexamples.LateDeltaResurrects` reaches it with
  two replicas and two operations, breaking hypothesis 3 once. `Results.LateDeliveryExactIff`
  gives the exact condition, as a test that the receiver could make itself.
- *A stale claim commits an epoch twice.* The epoch is read before the claim and not again
  (`src/gc/coordinator.rs:214-221`). `Counterexamples.StaleClaimCommitsTwice` reaches it;
  `Claims.ClaimSafeIff` gives the exact condition over all continuations.
- *A joiner can wait for ever.* The state loop waits for one exact epoch
  (`src/gc/coordinator.rs:318-324`). `Counterexamples.JoinerGetsStuck` reaches it.
  `Joiners.JoinerFinishesIff` says exactly which joiners can still finish, from the first
  read on: those that are not `Joiners.Doomed`, a test on the reads made and the store.
- *An exchange can leave the responder behind.* Between GC replicas a reply is always sent
  (`src/engine/crdt_engine.rs:277-284`); if the responder has an empty clock its own request
  rides on that reply and is dropped as empty (`src/server/peer_message_handler.rs:43-44`).
  `Counterexamples.RequestIsDropped` reaches it; `Exchanges.ExchangeConverges` shows this is
  the only such case.

## Model

| member | source | states |
|---|---|---|
| Clocks.VvLeq | src/logical_clocks/dot_version_vector.rs:63-69 | the check over stored keys decides the pointwise order with absent entries read as 0 |
| Clocks.VvJoin | src/logical_clocks/dot_version_vector.rs:32-42 | the loop computes the pointwise maximum in any iteration order |
| Clocks.VvMeet | src/logical_clocks/dot_version_vector.rs:44-61 | the loop computes the pointwise minimum and stores positive entries only |
| DotVersionVectors.EffectiveMap | src/logical_clocks/dot_version_vector.rs:136-143 | its entry for every node is the effective counter |
| DotVersionVectors.DotVersionVector.Event | src/logical_clocks/dot_version_vector.rs:180-186 | retires the dot into the context and mints the next one |
| DotVersionVectors.EventAdvancesOwn | src/logical_clocks/dot_version_vector.rs:180-186 | an event raises the own counter by one and nothing else, retires the old dot into the context, and keeps the new one outside it |
| DotVersionVectors.DotVersionVector.Absorb | src/logical_clocks/dot_version_vector.rs:207-228 | one entry of the peer's map, three ways for the own node |
| DotVersionVectors.AbsorbOneMore | src/logical_clocks/dot_version_vector.rs:203-230 | entries can be absorbed one at a time in any order |
| DotVersionVectors.DotVersionVector.Merge | src/logical_clocks/dot_version_vector.rs:203-230 | the loop over a hash map computes the three-way merge whatever the order |
| DotVersionVectors.MergeIsMax | src/logical_clocks/dot_version_vector.rs:203-230 | merge is the pointwise maximum of effective maps, for any argument |
| DotVersionVectors.OwnPastIsAbsorbed | src/logical_clocks/dot_version_vector.rs:191-225 | what a peer knows of our own events raises our own context entry, but never up to the dot |
| DotVersionVectors.MergeKeepsDotOutside | src/logical_clocks/dot_version_vector.rs:94-99 | merging anything keeps the dot outside the context |
| DotVersionVectors.CallsKeepDotOutside | src/logical_clocks/dot_version_vector.rs:94-99 | so does every sequence of event, merge and remove from a new vector |
| DotVersionVectors.DotVersionVector.Remove | src/logical_clocks/dot_version_vector.rs:116-118 | drops exactly that context entry |
| DotVersionVectors.DotVersionVector.DeltaSince | src/logical_clocks/dot_version_vector.rs:235-261 | the loop computes the clock delta for a peer's knowledge |
| DotVersionVectors.DeltaEntry | src/logical_clocks/dot_version_vector.rs:235-261 | a delta carries the sender's counter exactly where the peer lags |
| DotVersionVectors.DeltaRoundTrip | src/logical_clocks/dot_version_vector.rs:235-261 | merging the delta gives a peer that knew at least the stated knowledge the join of both histories, and it then descends from the sender |
| DotVersionVectors.DotVersionVector.DescendsFrom | src/logical_clocks/dot_version_vector.rs:148-161 | the loop over stored keys decides whether one history contains the other |
| DotVersionVectors.DotVersionVector.PartialCmp | src/logical_clocks/dot_version_vector.rs:270-296 | the two flags of the loop decide equal, less, greater or concurrent histories |
| DotVersionVectors.CompareIsOrder | src/logical_clocks/dot_version_vector.rs:270-296 | comparison is by history alone, symmetric under exchange, and transitive |
| DotVersionVectors.EmptyDeltaIff | src/engine/crdt_engine.rs:277-279 | the clock delta is empty exactly when the peer already covers the sender |
| OrSets.OrSet.Contains | src/crdt/or_set.rs:78-83 | true exactly for the elements of the abstract set |
| OrSets.OrSet.ElementSet | src/crdt/or_set.rs:85-90 | lists exactly those elements |
| OrSets.OrSet.Len | src/crdt/or_set.rs:92-97 | counts exactly those elements |
| OrSets.OrSet.ApplyLocal | src/crdt/or_set.rs:111-134 | an add records one pair; a remove entombs exactly the dots it saw |
| OrSets.OrSet.Entomb | src/crdt/or_set.rs:129-131 | the loop maps every given add-dot to the remove-dot and touches no other |
| OrSets.OrSet.MergeDelta | src/crdt/or_set.rs:136-155 | the two loops compute the merge on pairs and tombstones and leave no empty entry; of several pairs for an add-dot the last counts, and an arriving one replaces a stored one |
| OrSets.OrSet.MergeTombstones | src/crdt/or_set.rs:138-144 | records every tombstone, later ones winning, and evicts exactly their add-dots |
| OrSets.OrSet.MergeAdds | src/crdt/or_set.rs:147-154 | inserts exactly the arriving pairs that have no tombstone by then |
| OrSets.MergeIsJoin | src/crdt/or_set.rs:136-155 | any run of merges, with any contents, is a union of pairs and tombstones less the dead pairs |
| OrSets.MergeOrderAndRepetitionFree | src/crdt/or_set.rs:136-155 | so merging is commutative, associative and idempotent up to stored remove-dots |
| OrSets.PairsDetermineAdds | src/crdt/or_set.rs:145 | without empty entries the grouped map is determined by its pairs |
| OrSets.OrSet.PerformGc | src/crdt/or_set.rs:267-275 | an add-dot keeps its tombstone, with its value, if and only if its remove-dot's counter is above what the frontier has for that node |
| OrSets.CollectedIff | src/crdt/or_set.rs:267-275 | the same of the values: exactly the tombstones go whose remove-event the frontier has seen |
| OrSets.CollectionIsInvisible | src/crdt/or_set.rs:267-275 | collecting under any frontier leaves the elements and disjointness as they were |
| OrSets.OrSet.ListAdds | src/crdt/or_set.rs:232-243 | lists exactly the live pairs the peer has not seen |
| OrSets.OrSet.ListTombstones | src/crdt/or_set.rs:246-257 | lists exactly the tombstones whose remove-dot the peer has not seen |
| OrSets.OrSet.FullState | src/crdt/or_set.rs:204-224 | lists exactly the stored pairs and tombstones, with the effective clock |
| OrSets.OrSet.DeltaSince | src/crdt/or_set.rs:226-265 | lists exactly the stored pairs and tombstones whose add-dot or remove-dot is above what the peer has for that node, with the effective clock |
| Histories.MintedMeaning | src/logical_clocks/dot_version_vector.rs:180-186 | a fresh event adds exactly its own removals to what the minting replica has seen, and nothing to any older clock |
| Histories.OperationKeepsExact | src/engine/crdt_engine.rs:187-201 | minting a dot and applying an operation moves a replica to the meaning of its new clock |
| Histories.OperationKeepsCovered | src/engine/crdt_engine.rs:187-201 | with no hypothesis, an operation keeps every live pair an add the clock has seen, every tombstone's remove-dot seen, the two disjoint, and the clock closed under removes |
| Histories.MergeKeepsCovered | src/crdt/or_set.rs:136-155 | so does merging any covered delta |
| Histories.DeltaIsExact | src/crdt/or_set.rs:226-265 | a minimal delta carries every consequence of the sender's history, though it omits tombstones by a remove-dot that may have been overwritten |
| Histories.FullDeltaIsExact | src/crdt/or_set.rs:204-224 | the same of the full state |
| Histories.MergeExactIff | src/crdt/or_set.rs:136-155 | after a merge the set is the meaning of the joined clock if and only if no arriving add was removed in the receiver's past with its tombstone collected |
| Histories.ReceiverCanTell | src/crdt/or_set.rs:147-154 | that an add was removed in the receiver's past with its tombstone collected is what the receiver sees as: dot covered, pair not held, no tombstone |
| Histories.CoveredSenderIsGuarded | src/crdt/or_set.rs:147-154 | a sender that has seen what the receiver collected sends no such add |
| Histories.InFlightConditionIsWeakest | src/crdt/or_set.rs:147-154 | on clocks alone that condition, or an empty sender, is exactly what makes every delta safe |
| Histories.Resurrection | src/crdt/or_set.rs:147-154 | otherwise a history of one add and one remove puts the element back |
| Histories.CollectKeepsExact | src/crdt/or_set.rs:267-275 | collecting under a frontier the clock covers keeps the set exact |
| Histories.EqualClocksConverge | src/crdt/or_set.rs:136-155 | equal clocks give equal pairs whatever was collected, and equal tombstone keys when nothing was |
| Histories.NothingCollected | src/crdt/or_set.rs:136-155 | without collection the tombstones are exactly the removed dots the clock covers |
| Histories.MinimalDeltaRefinesFullState | src/crdt/or_set.rs:204-265 | merging the minimal delta does what merging the full state does |
| Histories.SuppressedReplyIsEmpty | src/engine/crdt_engine.rs:277-284 | when the clock delta is empty so is the set delta |
| StableTimestamps.NewMemberExists | src/gc/coordinator.rs:44-47 | true exactly when the second listing is not within the first |
| StableTimestamps.StableMeetsGlb | src/gc/coordinator.rs:353-396 | visiting exactly the pending nodes, in any order, gives the greatest clock below every member's clock and every pending row |
| StableTimestamps.StableIsGlb | src/gc/coordinator.rs:353-396 | visiting the nodes of any list gives the greatest clock below every member's clock and those nodes' rows |
| StableTimestamps.StableBelowMembers | src/gc/coordinator.rs:359-376 | it is below each member's clock, and empty when another member has no row |
| StableTimestamps.MemberMeetOrderFree | src/gc/coordinator.rs:359-376 | the members' meet does not depend on the order of the list |
| StableTimestamps.StableOrderFree | src/gc/coordinator.rs:347-398 | neither list order nor hash order matters to the timestamp or to who is obsolete |
| StableTimestamps.ObsoleteIff | src/gc/coordinator.rs:379-390 | a non-member with a positive final dot is obsolete if and only if every member's clock has it and some member's has no more; one without a final dot if it has a row and some member has seen nothing of it |
| StableTimestamps.UpdateIsMax | src/gc/coordinator.rs:144-160 | a report raises each entry of a row to the larger of the old and the reported one, and keeps all rows |
| StableTimestamps.WithoutIff | src/gc/coordinator.rs:162-178 | removing nodes takes exactly their rows and their columns |
| StableTimestamps.NobodyObsolete | src/gc/coordinator.rs:379-396 | with rows for members only and no final dots nobody is obsolete, and visiting non-members leaves the members' meet as it is |
| Coordinators.GcStorage.ClaimGcIntent | src/gc/storage.rs:158-169 | succeeds exactly when the intent object is absent, and then creates it |
| Coordinators.GcStorage.ReleaseGcIntent | src/gc/storage.rs:177-181 | deletes that intent and nothing else |
| Coordinators.GcStorage.WriteEpochState | src/gc/storage.rs:147-156 | replaces the state object alone |
| Coordinators.GcStorage.WriteEpochMetadata | src/gc/storage.rs:136-145 | replaces the metadata object alone |
| Coordinators.GcCoordinator.UpdateMatrixClock | src/gc/coordinator.rs:144-160 | on a GC replica the rows are the union and every entry is the maximum of the old and the reported one; a non-GC replica keeps its matrix |
| Coordinators.GcCoordinator.GetKnowledgeMatrix | src/gc/coordinator.rs:115-134 | the matrix rows of the given peers, for GC replicas only |
| Coordinators.GcCoordinator.ForgetNodes | src/gc/coordinator.rs:197-203 | exactly the given nodes leave the clock's context, the rows and the columns; every other entry stays |
| Coordinators.GcCoordinator.ComputeStableTimestamp | src/gc/coordinator.rs:333-399 | the loops return the greatest clock below every member's clock and the row of every other node that is not obsolete; a non-member with a positive final dot is obsolete if and only if every member has seen it and some member nothing beyond; nothing at all if a member has no row or the replica does no GC |
| Coordinators.GcCoordinator.ClassifyNonMembers | src/gc/coordinator.rs:379-390 | the loop splits the non-members: obsolete when the final dot is what the members record, absent matching absent, and pending otherwise |
| Coordinators.GcCoordinator.ObserveEpochChange | src/gc/coordinator.rs:180-206 | a later epoch is moved to: exactly its obsolete nodes leave clock and matrix and exactly the tombstones its frontier has seen go; otherwise nothing changes |
| Laws.ObserveTwice | src/gc/coordinator.rs:188-190 | observing the same metadata again changes nothing |
| Coordinators.GcCoordinator.InitiateGc | src/gc/coordinator.rs:208-291 | which condition gives which abort, and that an abort changes neither replica nor store; a commit means strict progress, takes the next epoch for replica, metadata and state alike, stores the greatest lower bound less the obsolete nodes and a snapshot of the collected replica, and frees the intent |
| Coordinators.GcCoordinator.CommitGc | src/gc/coordinator.rs:257-284 | the obsolete nodes leave clock, matrix and timestamp before the snapshot is taken |
| Coordinators.GcCoordinator.SettleEpoch | src/gc/coordinator.rs:299-314 | which epoch the intent-polling loop settles on, for every sequence of observations |
| Coordinators.GcCoordinator.NewReplicaBootstrap | src/gc/coordinator.rs:293-331 | finishes exactly when the observations lead there, at the epoch of the state it adopts, with the join of its clock and the author's |
| Coordinators.GcCoordinator.Adopt | src/gc/coordinator.rs:326-329 | merges the snapshot and its author's clock, and takes its epoch |
| Laws.AdoptMeaning | src/gc/coordinator.rs:326-329 | the epoch is the snapshot's, the clock the pointwise maximum, the set the merge of both |
| Laws.InitiateMeaning | src/gc/coordinator.rs:252-262 | exactly the obsolete nodes leave the initiator, and exactly the tombstones go that the remaining timestamp has seen |
| Laws.DeltaTeachesRows | src/engine/crdt_engine.rs:227-230 | a GC replica takes the maximum with every row that comes with a delta |
| Laws.RequestTeachesRow | src/engine/crdt_engine.rs:264-266 | and with the requester's own clock in every request |
| Laws.ReplyCarriesRows | src/engine/crdt_engine.rs:277-306 | a GC replica sends a GC replica its rows of the registered peers, always with a delta |
| Attempts.UninterruptedAttempt | src/gc/coordinator.rs:208-291 | the one-operation-at-a-time steps, uninterrupted, do to replica and store what the method does, whichever way it ends, and leave everybody else alone |
| Engines.CrdtEngine.ClientOperation | src/engine/crdt_engine.rs:187-201 | mints, applies, and advertises the new clock |
| Engines.CrdtEngine.ServerDelta | src/engine/crdt_engine.rs:204-246 | clock and rows become pointwise maxima and the set the merge; an unknown set or undecodable payload changes nothing |
| Engines.CrdtEngine.ServerPullRequest | src/engine/crdt_engine.rs:249-320 | raises the requester's row to what it reports, then sends exactly the reply it is due |
| Engines.CrdtEngine.DeltaPayload | src/engine/crdt_engine.rs:271-284 | a delta is sent when the clock is ahead, and always between GC replicas |
| Engines.CrdtEngine.RespondToPullRequest | src/network/dissemination.rs:381-418 | one envelope at most, with the request riding on the delta when both are due |
| Engines.CrdtEngine.PushVersionVector | src/network/dissemination.rs:353-369 | one request carrying the whole clock, if there is a peer |
| Engines.CrdtEngine.ObserveEpochChange | src/engine/crdt_engine.rs:322-335 | the same of this engine's clock, matrix and set |
| Exactness.StepKeepsGrounded | src/engine/crdt_engine.rs:73-130 | every step of every replica, under no hypothesis, keeps clocks, rows, coverage and frontiers; clocks and the history only grow |
| Theorems.ExecutionIsGrounded | src/engine/crdt_engine.rs:73-130 | so they hold after every run |
| Theorems.RunKeepsExact | src/crdt/or_set.rs:136-155 | in every run that meets the in-flight hypothesis every set, every delta in flight and the stored snapshot is exact |
| Theorems.RunKeepsProtocol | src/gc/coordinator.rs:208-331 | in every run that meets the claim hypothesis the epoch protocol holds |
| FrontierSteps.ReadEpochMeets | src/gc/coordinator.rs:214-217 | when an initiator reads the epoch, either it has at most the clock of the stored state's author for that author, or the state is finished and joiners it misses must wait for its intent |
| FrontierSteps.ReadStaysKept | src/gc/coordinator.rs:299-314 | no read of a missed joiner settles on that state while the intent is held |
| FrontierSteps.FindingIsStable | src/gc/coordinator.rs:219-250 | the frontier of a GC that makes progress is below the clock of every active replica, including any the membership read missed, however stale the claim |
| FrontierSteps.AdoptableCovers | src/gc/coordinator.rs:316-324 | at the moment a joiner may adopt, the snapshot covers everything ever collected |
| FrontierSteps.StepKeepsFrontiers | src/gc/coordinator.rs:180-331 | every step keeps every collected and committed frontier below every active clock |
| Protocol.AdoptableIsCurrent | src/gc/coordinator.rs:316-324 | with current claims the joiner then adopts the stored epoch, and no commit in progress overlooked it |
| Protocol.SoleCommitter | src/gc/coordinator.rs:221-227 | at most one replica is between its claim and its metadata write |
| Results.CausalCompleteness | src/crdt/or_set.rs:136-155 | after every run, collections and stale claims included, an add is live at a replica exactly when its clock has seen it and no remove of it |
| Results.NoResurrection | src/crdt/or_set.rs:267-275 | once a replica has seen an add removed, no continuation of the run makes it live there |
| Results.LateDeliveryExactIff | src/crdt/or_set.rs:147-154 | after a collection that ignores what is in flight, taking a delta leaves the set exact if and only if the receiver finds no add it has seen, no longer holds and has no tombstone for |
| Results.RunGrows | src/engine/crdt_engine.rs:187-201 | along every run clocks, counters and the history only grow |
| Results.StrongConvergence | src/crdt/or_set.rs:136-155 | equal clocks mean equal sets, and equal tombstone keys if nothing was collected |
| Results.MinimalDeltaSuffices | src/crdt/or_set.rs:226-265 | between any two replicas in any run, for any knowledge the receiver has, the minimal delta does what the full state does |
| Results.SuppressedRepliesLoseNothing | src/engine/crdt_engine.rs:277-284 | a reply that is not sent would have carried no pair and no tombstone |
| Results.CollectionIsTransparent | src/crdt/or_set.rs:267-275 | in every run collecting under any frontier changes no element |
| Results.ObserveCollects | src/gc/coordinator.rs:188-195 | in every run observing a later epoch drops exactly the tombstones whose remove-event the stored frontier has seen, and nobody |
| Results.GatherCollects | src/gc/coordinator.rs:243-260 | in every run an initiator goes on exactly when what it found is not below the previous timestamp, and then drops exactly the tombstones its frontier has seen |
| Results.NewcomersStopCollection | src/gc/coordinator.rs:230-240 | it is confirmed exactly when the second membership read shows nobody new |
| Results.MatrixSoundness | src/gc/coordinator.rs:144-160 | every row in a matrix, in a request, in a request riding on a delta or in a knowledge matrix in flight is at most that node's clock |
| Learning.RowsNeverFall | src/gc/coordinator.rs:144-160 | in every run no row that a replica holds is lost or falls at any node |
| Learning.OldReportsChangeNothing | src/gc/coordinator.rs:149-153 | a report at most as new as the row leaves every row as it was |
| Learning.AdvertisedClockIsLearned | src/network/dissemination.rs:353-369 | a clock advertised to a GC replica and served there is in its matrix |
| Learning.ExchangeTeachesRows | src/engine/crdt_engine.rs:296-306 | an exchange between GC replicas raises the requester's rows to the responder's, and the responder's row for the requester to its clock |
| Handling.HandlingIsSteps | src/server/peer_message_handler.rs:21-68 | handling one envelope, the delta first and then the request that came with it, is the system's delivery and serving steps |
| Results.CommitsPersist | src/gc/coordinator.rs:281-282 | with current claims, what was committed for an epoch is never committed differently later |
| Results.CommittedFrontiersAreStable | src/gc/coordinator.rs:219-284 | every frontier collected under or committed by any point of any run has been seen by every replica active at that point or any later one |
| Results.NobodyKnowsMore | src/logical_clocks/dot_version_vector.rs:203-230 | no clock of a replica, joining or active, no matrix row, no clock in any message and none in the store holds a counter for any node above that node's own |
| Results.MintedDotsAreUnique | src/logical_clocks/dot_version_vector.rs:180-186 | the next dot of any replica is unknown to the history and to all of those clocks |
| Results.DeliveryKeepsOwnDot | src/logical_clocks/dot_version_vector.rs:213-221 | no delivered delta takes the fast-forward branch |
| Results.AdoptionKeepsOwnDot | src/gc/coordinator.rs:326-328 | nor does the merge that ends a bootstrap |
| Results.JoinerSafety | src/gc/coordinator.rs:293-331 | a replica that a committed GC did not count adopted that epoch or a later one, for every interleaving of registration, reads, writes, claim and release, and is at no earlier epoch since |
| Results.ReplicasKeepUp | src/gc/coordinator.rs:284 | no active replica is behind the epoch it adopted or ahead of the stored one |
| Results.AdoptionCoversCollections | src/gc/coordinator.rs:316-329 | in every run an adopting joiner gets the snapshot author's clock, and that covers everything collected so far |
| Results.SnapshotConsistency | src/gc/coordinator.rs:263-282 | and, under the in-flight hypothesis, the set that clock determines |
| Results.AdoptionIsCurrent | src/gc/coordinator.rs:316-324 | with current claims it adopts the epoch the metadata names |
| Results.IntentsAreExclusive | src/gc/storage.rs:158-181 | in every run an intent has one holder between its claim and its release |
| Results.EpochStoreInvariant | src/gc/coordinator.rs:214-227 | one committer at a time; an intent has one holder; the state object is at most one epoch ahead, and only while that intent is held |
| Results.CommitRaisesEpochByOne | src/gc/coordinator.rs:281-284 | only a metadata write changes the stored epoch, by exactly one |
| Claims.ClaimSafeIff | src/gc/coordinator.rs:214-221 | after one more successful claim that is about to make progress, every commit in every continuation raises the stored epoch by one if and only if that claim met the epoch before the claimed one |
| Claims.CommitRaisesEpochIff | src/gc/coordinator.rs:214-284 | such a claim, uninterrupted, commits the epoch it named whatever is stored by then |
| Joiners.DoomedStays | src/gc/coordinator.rs:299-324 | a joiner whose reads settle on an epoch the state object has passed stays so through every step |
| Joiners.DoomedForEver | src/gc/coordinator.rs:299-324 | and through every continuation |
| Joiners.PollingCanFinish | src/gc/coordinator.rs:304-314 | a joiner still polling the intent can always finish: whoever holds the intent can be driven to its release |
| Joiners.ExecutionKeepsOwned | src/gc/storage.rs:158-181 | in every run every intent in the store has a holder between its claim and its release |
| Joiners.JoinerFinishesIff | src/gc/coordinator.rs:293-331 | after any run with current claims, wherever a joiner is in its bootstrap, some such continuation makes it active if and only if it is not doomed |
| Joiners.SettledJoinerFinishesIff | src/gc/coordinator.rs:318-324 | in the state loop that means the state object still has the epoch it settled on |
| Exchanges.PullCatchesUp | src/server/peer_message_handler.rs:25-37 | one delta brings the requester to the join of both clocks |
| Exchanges.ExchangeConverges | src/network/dissemination.rs:381-418 | after request, reply and answer the requester has the join of both clocks; the responder has it if and only if its request was not dropped as empty; and if it has, replicas that were exact show the same set |
| Exchanges.ExchangeClocksInRuns | src/server/peer_message_handler.rs:21-53 | the clock part, for any two active replicas after any run |
| Exchanges.ExchangeConvergesInRuns | src/server/peer_message_handler.rs:21-53 | clocks and sets, for any two active replicas after any run that meets the in-flight hypothesis |
| Counterexamples.LateDeltaResurrects | src/crdt/or_set.rs:147-154 | a run that breaks only the in-flight hypothesis shows an element at a replica that has seen it removed |
| Counterexamples.JoinerGetsStuck | src/gc/coordinator.rs:299-324 | a run that breaks no hypothesis leaves a joiner settled on epoch 0, doomed |
| Counterexamples.StaleClaimCommitsTwice | src/gc/coordinator.rs:214-221 | two initiators commit epoch 1 one after the other |
| Counterexamples.RequestIsDropped | src/server/peer_message_handler.rs:43-44 | a run of two GC replicas and one operation reaches an exchange that leaves the responder behind the join |

## Left out

- Departures in the system theorems: removing an obsolete node makes clocks shrink. The methods that do it are modelled and specified one call at a time.
- Restarts, crashes in the middle of a GC, failing storage calls, and an engine that goes on after a failed bootstrap.
- Liveness: which joiners can finish is decided, not that they will; nothing is said about polling or gossip ending.
- Monotonicity of the stable timestamp across epochs: it does not hold between different initiators.
- Equality of stored remove-dots between replicas: concurrent removes overwrite them, so keys are compared.
- Integer width: counters and epochs are natural numbers, the source's are 64 bits.
- Bytes: payloads travel as values; an undecodable one is an absent delta.
- The object store's and the network's own machinery, timers, jitter, back-off, metrics and logs.
- Push-only and pull-only dissemination: the engine is modelled with push-pull, the strategy that does both.
- Retain and values_mut passes over hash maps are written as map comprehensions; the loops around them are loops.
- `vv_lt` and `full_delta`, which the modelled code does not use.
- The choice of peer: in the system any replica may be asked, at any time.
