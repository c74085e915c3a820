# Map platform: verified core

This project models the stateful core of a map rendering platform and proves what
it keeps over every run. `dafny verify dfyconfig.toml` checks all of it.

The platform has a management plane that publishes map styles into a conditional
object store, and renderer nodes that fetch styles, render images on pooled
workers, cache the results, and route work among each other over gossip.

## How the model is built

Concurrent protocols are state machines. A step is one atomic action of the code: a
store operation, a critical section, an atomic load or compare-and-swap, a channel
send. `Possible` says when a step can happen, `Apply` what it does, and a result
about every run is stated over `Init` and `Legal`. Objects whose methods update
fields are classes with those fields, each method proved equal to a function of the
old state; loops are methods with invariants.

| files | component |
|---|---|
| `Text`, `Profiles` | shared vocabulary: bytewise text, decimal numerals, worker profiles |
| `MutationIdentity` | style object paths, version evidence, the digest input of a publication |
| `PublicationProtocol`, `PublicationSafety`, `PublicationRecovery`, `PublicationWitness`, `PublicationOutcomes`, `StylePublisher` | mutation journal and style publisher |
| `StyleCatalog`, `CatalogFence`, `ClusterAdoption` | refresh fence and revision adoption between nodes |
| `NamespaceSet`, `RenderCache`, `RenderFollowers`, `AddLayer` | the single-flight output cache and its authority checks |
| `PoolState`, `PoolHistory`, `SourceCache`, `WorkerPick`, `WorkerProtocol`, `WorkerSafety`, `WorkerReplies`, `WorkerWarmth`, `WorkerOvertaking` | worker pool and worker loop |
| `Ranking`, `ClusterState`, `WarmTarget`, `DrainSwap`, `Dispatcher`, `Decisions`, `WarmPlan` | routing and warm planning |
| `Gossip`, `GossipMixture`, `GossipPublisher`, `Forwarding` | gossip encoding and delta publication, forward budget, frame and timeline |

## Assumptions

- The object store rejects a duplicate create and a stale update, never reuses a
  version and never deletes an object; state references are fresh. This is the
  contract the code probes for at start-up.
- SHA-256 is injective: a digest is a constructor applied to its input.
- A text is its UTF-8 bytes, one character per byte.
- Randomness, clocks, versions and references are parameters. `hrw_weight` is an
  arbitrary function of style id, mode, scale and node.
- Fewer than 2^64 hints or invalidations happen during one fetch or render, and
  fewer than 2^64 dispatches go to one worker. `CatalogFence.FenceExact` says what
  happens beyond that for hints.
- A node's decoded state carries that node's id (`ClusterState.Keyed`), as gossip
  decoding gives it.
- The bounded render cache may drop any entry at any time, and invalidating by
  predicate has taken effect when the call returns; a watch channel's
  followers are woken by the leader's notification.

## Where the code differs from what one would expect

- Under the flat layout the style id `style` has no object path
  (`MutationIdentity.ForResourceResolves`).
- A retry of a publication that was superseded before its completion was recorded is
  refused, although it did commit once (`PublicationRecovery.RetryAfterCrash`, reached
  by `PublicationWitness.RefusedRetryHappens`).
- One uncompleted style publication without a usable path makes every reconciliation
  scan fail, so recoverable intents listed after it are never completed
  (`PublicationRecovery.ScanEffect`, reached by `PublicationWitness.StarvedIntent`).
- A revision adopted from a peer can become unacceptable when an ordinary fetch
  finds a third version (`StyleCatalog.ContinuityExact`, reached by
  `CatalogFence.StrandingHappens`).
- After a second hint the revision announced for the first is still served from the
  output cache (`CatalogFence.HintStaysPending`, reached by `SecondHintDoesNotBlock`).
- The invalidation epoch is read after the flight lock is released, so a resident
  entry's leader may have been elected before the last invalidation
  (`RenderCache.ElectedAfterExactly`, reached by `ElectedBeforeInvalidation`).
- Marking and sending share no lock: a command sent after one of a later generation
  can leave a false warm prediction (`WorkerWarmth.WarmAgreement`, reached by
  `WorkerOvertaking.OvertakingHappens`).
- Queue depths are cut to 32 bits in the drain estimate (`DrainSwap.EstimateExactly`,
  reached by `EstimateFails`); a drain bound of at most 2^32 excludes it.
- A peer that holds values of different rounds can see a profile a worker never had
  (`GossipMixture.MixtureIsOneRound`, reached by `CrossRoundHappens`).
- A revision with an empty style id prints but does not parse
  (`Gossip.RevisionRoundTrip`).

## Model

| member | source | states |
|---|---|---|
| `MutationIdentity.ForResourceResolves` | crates/abashiri-core/src/style.rs:64-80 | every canonical account and style id has an object path that parses back to it, except the flat layout with the style id "style", which resolves to nothing |
| `MutationIdentity.StylePathHasNoNul` | crates/abashiri-core/src/style.rs:82-107 | an accepted style path never contains the identity separator |
| `MutationIdentity.PathsExactly` | crates/abashiri-core/src/style.rs:82-107 | which paths are accepted, and the account and style each names |
| `MutationIdentity.InputIdentityRoundTrip` | crates/abashiri-core/src/style.rs:890-909 | location, precondition and body are read back from the NUL-separated bytes; the body may contain NUL |
| `MutationIdentity.InputIdentityInjective` | crates/abashiri-core/src/style.rs:858-909 | equal input bytes are the same publication, so a reused key with the same digest is the same mutation |
| `PublicationSafety.StepKeeps` | crates/abashiri-core/src/style.rs:648-759 | every store operation of every publisher and reconciler keeps the protocol invariant and rewrites nothing durable |
| `PublicationSafety.FirstPut` | crates/abashiri-core/src/style.rs:672-723 | whenever the store lets a put through, no earlier put was made under the same intent |
| `PublicationSafety.ExactlyOnce` | crates/abashiri-core/src/style.rs:648-759 | in every run of publishers, retries, crashes and reconcilers, at most one put carries an intent's state reference |
| `PublicationSafety.LinearChain` | crates/abashiri-core/src/style.rs:648-759 | in every run each put at a location replaced exactly the version its immediate predecessor there left, and a reader finds the last put |
| `PublicationSafety.CompletionTruth` | crates/abashiri-core/src/mutation.rs:495-531 | in every run a stored completion describes a put that happened under its intent's reference, location, precondition and body |
| `PublicationSafety.CompletionAgreement` | crates/abashiri-core/src/mutation.rs:406-411 | in every run a completion about to be written agrees with the stored one, so the disagreement errors are never returned |
| `PublicationSafety.SingleCommitter` | crates/abashiri-core/src/mutation.rs:464-531 | at most one caller per mutation is told it committed, and all who are told a version are told the same one |
| `PublicationRecovery.AloneIsRun` | crates/abashiri-core/src/mutation.rs:464-493 | an uninterrupted request is a run of the protocol, so the safety results cover it |
| `PublicationRecovery.RetryAdopts` | crates/abashiri-core/src/style.rs:661-670 | retrying an unsuperseded, uncompleted publication adopts the version it originally wrote and only adds the completion |
| `PublicationRecovery.RetryRefused` | crates/abashiri-core/src/style.rs:672-700 | retrying a superseded, uncompleted publication is refused and changes nothing |
| `PublicationRecovery.RetryPublishes` | crates/abashiri-core/src/style.rs:672-723 | a retry that is neither completed nor current publishes now if and only if its precondition holds, and is otherwise refused with the error for that precondition and changes nothing |
| `PublicationRecovery.RetryCompleted` | crates/abashiri-core/src/mutation.rs:464-493 | retrying a completed publication returns the version of its one put and changes nothing |
| `PublicationRecovery.RetryAfterCrash` | crates/abashiri-core/src/style.rs:661-670 | from every reachable state a retry of a published request returns the originally written version if and only if it is completed or still current, and never puts again |
| `PublicationRecovery.ReconcileOneEffect` | crates/abashiri-core/src/style.rs:598-646 | one reconciled intent is completed exactly when its reference is on the current object, fails exactly when it is an uncompleted style publication without a usable path, and is otherwise reported as the stores stand; nothing but the completion changes |
| `PublicationRecovery.ScanEffect` | crates/abashiri-core/src/style.rs:571-596 | for every listing: the scan fails if and only if an uncompleted style publication without a usable path is listed; it completes exactly the recoverable intents listed before the first such one; when it does not fail every counter of its report is the number of intents of that kind; published state is left alone |
| `PublicationRecovery.SecondScanIsIdle` | crates/abashiri-core/src/style.rs:571-646 | after any run and for every listing, a second quiet scan changes nothing, fails exactly when the first did, and otherwise reports the same counts with nothing left to complete |
| `PublicationWitness.PutThenCrash` | crates/abashiri-core/src/style.rs:648-759 | a publisher whose precondition holds can put its object and be gone before its completion, from any state |
| `PublicationWitness.RefusedRetryHappens` | crates/abashiri-core/src/style.rs:672-700 | from every initial state, a run in which a request publishes, crashes and is replaced by a second one; every retry of the first is then refused although it was published |
| `PublicationWitness.StarvedIntent` | crates/abashiri-core/src/style.rs:571-596 | with a stuck intent in the initial journal, a run that leaves a recoverable intent which no scan that lists the stuck one first ever completes |
| `PublicationWitness.StarvationHappens` | crates/abashiri-core/src/style.rs:616-628 | such a journal: an intent without a locator for the style id "style", scanned under the flat layout |
| `PublicationOutcomes.ConflictExactly` | crates/abashiri-core/src/mutation.rs:585-616 | a request whose key holds an intent is refused as a conflict, changing nothing, if and only if that intent differs in key digest, actor, action, account, kind, style id or input digest, or names another location |
| `PublicationOutcomes.ConflictInEveryRun` | crates/abashiri-core/src/mutation.rs:286-298 | in every run a publisher told a conflict came with another mutation than its key records, and one told a version came with that very mutation |
| `PublicationOutcomes.OneMutationPerKey` | crates/abashiri-core/src/mutation.rs:286-298 | in every run two publishers under one key are told a version only if actor, style, location, precondition and body agree |
| `PublicationOutcomes.RefusalIsTrue` | crates/abashiri-core/src/style.rs:648-759 | in every run, races included, a publisher is refused only while its precondition does not hold and its own object is not current, and the error says which |
| `PublicationOutcomes.PutsAreBounded` | crates/abashiri-core/src/style.rs:934-939 | in every run what was put is not empty and at most two mebibytes |
| `StylePublisher.Publisher.constructor` | crates/abashiri-core/src/mutation.rs:451-455 | opening over existing stores leaves them as they are; exactly when a run may start from them |
| `StylePublisher.Publisher.EnsureIntent` | crates/abashiri-core/src/mutation.rs:585-616 | the method takes the same journal steps as the protocol and reports the same conflict |
| `StylePublisher.Publisher.RecordCompletion` | crates/abashiri-core/src/mutation.rs:495-531 | stores and outcome are those of the protocol's completion steps |
| `StylePublisher.Publisher.CommitStyle` | crates/abashiri-core/src/style.rs:648-723 | stores and next step are those of the protocol from reading state to the conditional put |
| `StylePublisher.Publisher.Put` | crates/abashiri-core/src/storage.rs:79-137 | a conditional put under its checked precondition |
| `StylePublisher.Publisher.Publish` | crates/abashiri-core/src/style.rs:530-569 | stores and outcome equal the uninterrupted protocol run |
| `StylePublisher.Publisher.ReconcileIntent` | crates/abashiri-core/src/style.rs:598-646 | stores and outcome equal the uninterrupted reconciliation of one intent |
| `StylePublisher.Publisher.ReconcileUnfinished` | crates/abashiri-core/src/style.rs:571-596 | stores and report equal the scan over the listing |
| `StyleCatalog.FloorKeptByFetch` | crates/biei-core/src/style_catalog.rs:465-532 | recording a fetch keeps every next fetch at or after the last one plus the floor |
| `StyleCatalog.FloorKeptByHint` | crates/biei-core/src/style_catalog.rs:615-668 | a hint keeps every next fetch at or after the last one plus the floor |
| `StyleCatalog.FloorKeptByAdoption` | crates/biei-core/src/style_catalog.rs:672-696 | an adoption keeps every next fetch at or after the last one plus the floor |
| `StyleCatalog.HintPullsToFloor` | crates/biei-core/src/style_catalog.rs:644-662 | one hint pulls the next fetch to exactly the floor and marks it pending; further hints leave it there |
| `StyleCatalog.LatestIsAccepted` | crates/biei-core/src/style_catalog.rs:301-325 | the latest version is always accepted |
| `StyleCatalog.ContinuityExact` | crates/biei-core/src/style_catalog.rs:465-561 | a recorded fetch leaves the previously latest version accepted if and only if it does not drop a cluster revision that is neither found nor superseded by it, or it panics before it can |
| `StyleCatalog.ContinuityHolds` | crates/biei-core/src/style_catalog.rs:472-561 | nothing is dropped while the cluster revision is absent or equals the local one |
| `StyleCatalog.ContinuityUnderHint` | crates/biei-core/src/style_catalog.rs:615-668 | a hint for any style leaves the latest version accepted |
| `StyleCatalog.ContinuityUnderAdoption` | crates/biei-core/src/style_catalog.rs:672-696 | an adoption leaves the latest version accepted |
| `StyleCatalog.ContinuityUnderOtherFetch` | crates/biei-core/src/style_catalog.rs:465-561 | a fetch of another style leaves the latest version accepted |
| `StyleCatalog.OutcomeExactly` | crates/biei-core/src/style_catalog.rs:615-668 | what a hint is answered: accepted exactly when the style was fetched before and hint and fence entry are stored, already due exactly when it was not and the hint is stored |
| `StyleCatalog.AdoptsExactly` | crates/biei-core/src/style_catalog.rs:672-697 | an observation changes the catalog exactly when it answers the waiting hint, is well formed and fits the gossip envelope |
| `StyleCatalog.AdoptionCausesFetch` | crates/biei-core/src/style_catalog.rs:326-344 | after an adoption the style is fetched again exactly when another version or none was fetched here, or its time has come |
| `StyleCatalog.FetchSettles` | crates/biei-core/src/style_catalog.rs:465-561 | a current fetch leaves nothing pending; the style is due again exactly from its next date on, and its output is cached until then or while it is the cluster revision |
| `StyleCatalog.UnknownExactly` | crates/biei-core/src/style_catalog.rs:301-313 | a style has no version exactly when it was never observed, adopted or configured and no template covers it |
| `StyleCatalog.ReplayIsIdle` | crates/biei-core/src/style_catalog.rs:672-696 | applying an observation twice is applying it once |
| `StyleCatalog.StyleCatalog.RevalidationFence` | crates/biei-core/src/style_catalog.rs:577-583 | the captured fence |
| `StyleCatalog.StyleCatalog.RecordObservedForGeneration` | crates/biei-core/src/style_catalog.rs:465-561 | the whole catalog after a fetch and whether the version changed; it panics exactly when a current fetch resolves a hint that does not fit the gossip envelope, and what it has then changed |
| `StyleCatalog.StyleCatalog.RequestRevalidation` | crates/biei-core/src/style_catalog.rs:615-668 | the whole catalog and the answer after a hint, with both bounded maps full or not |
| `StyleCatalog.StyleCatalog.ApplyClusterObservation` | crates/biei-core/src/style_catalog.rs:672-696 | the whole catalog after a peer's observation; reports exactly the changes of the latest version |
| `StyleCatalog.StyleCatalog.RevalidationBlocksOutputCache` | crates/biei-core/src/style_catalog.rs:723-728 | when the output cache is bypassed |
| `CatalogFence.FenceExact` | crates/biei-core/src/style_catalog.rs:465-495 | a completing fetch is judged current exactly when, modulo 2^64, no hint arrived since, or its style had an entry and no hint for it arrived |
| `CatalogFence.FenceSoundInEveryRun` | crates/biei-core/src/style_catalog.rs:465-495 | in every run with fewer than 2^64 hints in flight a fetch is judged current only if no hint for its style was accepted since its fence, even with the bounded maps full |
| `CatalogFence.HintStaysPending` | crates/biei-core/src/style_catalog.rs:615-668 | in every run a hint stays pending until a fetch begun after it completes, and blocks the output cache for every revision but the current cluster one |
| `CatalogFence.FloorInEveryRun` | crates/biei-core/src/style_catalog.rs:465-668 | in every run no fetch of a style is scheduled before its last fetch plus the floor |
| `CatalogFence.ScheduledExactly` | crates/biei-core/src/style_catalog.rs:465-510 | in every run a completing fetch schedules the next one after its freshness, but no less than the floor, if no hint at all or none for a style with a fence entry arrived since it began, and otherwise after exactly the floor |
| `CatalogFence.UnsatisfiedIsDue` | crates/biei-core/src/style_catalog.rs:615-668 | in every run the style of an unsatisfied hint is due exactly the floor after its last fetch, or now if it was never fetched |
| `CatalogFence.SecondHintDoesNotBlock` | crates/biei-core/src/style_catalog.rs:723-728 | a run of hint, fetch, second hint after which the first hint's revision is still served |
| `CatalogFence.StrandingHappens` | crates/biei-core/src/style_catalog.rs:551-559 | from every fresh catalog, a run of fetch, hint, adoption and an ordinary fetch after which the version that was latest and accepted is no longer accepted |
| `ClusterAdoption.AnnouncesWhatIsStored` | crates/biei-core/src/style_catalog.rs:534-543 | what a fetch announces is what the catalog keeps in its ring |
| `ClusterAdoption.AdoptionProvenance` | crates/biei-core/src/style_catalog.rs:672-696 | over every run of catalogs with lost, reordered and repeated announcements, an adopted version was fetched by a fetch begun after its node received the hint, and adopted while that hint was the adopter's latest |
| `ClusterAdoption.AdoptionIsOnce` | crates/biei-core/src/style_catalog.rs:672-696 | an adoption resolves its hint, and delivering the same announcement again changes nothing |
| `NamespaceSet.TryNew` | crates/biei-core/src/types.rs:105-127 | the normalized set grants exactly what the input names, or the input is refused |
| `NamespaceSet.BinarySearch` | crates/biei-core/src/types.rs:157-166 | finds a namespace if and only if it is there |
| `NamespaceSet.CheckAllows` | crates/biei-core/src/types.rs:157-166 | the loop answers the coverage test |
| `NamespaceSet.AllowsIsCoverage` | crates/biei-core/src/types.rs:157-166 | a grant allows a requirement if and only if it grants every namespace the requirement grants |
| `NamespaceSet.CanonicalUnique` | crates/biei-core/src/types.rs:105-127 | sets that grant the same namespaces are equal, so comparing recorded requirements compares authority |
| `RenderCache.SingleFlight` | crates/biei-core/src/render_cache.rs:206-246 | in every run a key has a flight entry if and only if it has a live leader, and never two |
| `RenderCache.NoStrandedFollower` | crates/biei-core/src/render_cache.rs:248-307 | in every run a waiting follower can recheck now or after the remaining steps of one other holder of its key |
| `RenderCache.ResidentIsCurrent` | crates/biei-core/src/render_cache.rs:167-178 | in every run a resident entry was rendered by a leader ready after the last completed invalidation of its style |
| `RenderCache.ElectedAfterExactly` | crates/biei-core/src/render_cache.rs:229-244 | in every run a resident entry's leader was elected after the last completed invalidation of its style if and only if none fell between its election and its epoch load |
| `RenderCache.ElectedBeforeInvalidation` | crates/biei-core/src/render_cache.rs:229-244 | from every empty cache, a run in which an invalidation falls between the two and the bytes stay resident, rendered by a leader elected before it |
| `RenderCache.HitsAreAuthorizedAndCurrent` | crates/biei-core/src/render_cache.rs:206-224 | in every run a hit's reader grants cover those recorded with the bytes, and the bytes postdate the style's last invalidation before the hit |
| `RenderCache.AdmittedExactly` | crates/biei-core/src/render_cache.rs:265-294 | an outcome is stored exactly when nothing was invalidated since its leader became ready and no other requirement is resident; its reader is then served it |
| `RenderCache.RequirementNeverChanges` | crates/biei-core/src/render_cache.rs:276-292 | a recorded requirement never changes while its entry stays resident, in any run |
| `RenderCache.MissedReaderIsServed` | crates/biei-core/src/render_cache.rs:217-224 | a reader that missed before bytes became resident is served them at the lock instead of starting a second render |
| `RenderCache.InvalidationIsLocal` | crates/biei-core/src/render_cache.rs:167-178 | in every run completing an invalidation removes exactly the entries of the style that advanced the epoch last |
| `RenderFollowers.RecheckLooksAgain` | crates/biei-core/src/render_cache.rs:253-261 | a woken follower is back at its first read with the same key and grants, and nothing else has changed |
| `RenderFollowers.NextRead` | crates/biei-core/src/render_cache.rs:211-215 | the read serves exactly when bytes whose grants the reader covers are resident, and otherwise leads to the lock |
| `RenderFollowers.NextLookup` | crates/biei-core/src/render_cache.rs:217-244 | in every run the lookup under the lock serves covered resident bytes, or waits on the channel of the live leader, or makes this reader the only leader |
| `RenderFollowers.FollowerIsServed` | crates/biei-core/src/render_cache.rs:248-261 | while bytes a follower may have stay resident, and whatever else happens, it waits, rechecks and is served exactly those bytes unless it gives up; it never renders |
| `RenderFollowers.FollowerGetsLeadersOutput` | crates/biei-core/src/render_cache.rs:248-307 | in every run, after a leader's outcome is admitted, its remaining steps and the follower's recheck and read are possible and serve the follower that output |
| `RenderCache.RenderOutputCache.constructor` | crates/biei-core/src/render_cache.rs:123-156 | an empty cache at epoch zero |
| `RenderCache.RenderOutputCache.Read` | crates/biei-core/src/render_cache.rs:211-215 | an authorized resident entry or nothing |
| `RenderCache.RenderOutputCache.Locked` | crates/biei-core/src/render_cache.rs:217-238 | the section under the flight lock |
| `RenderCache.RenderOutputCache.LookupOrJoin` | crates/biei-core/src/render_cache.rs:206-245 | the whole lookup when nothing intervenes: hit, join or election, and the epoch taken |
| `RenderCache.RenderOutputCache.InsertFromOutcome` | crates/biei-core/src/render_cache.rs:265-294 | whether the outcome was stored and the cache afterwards |
| `RenderCache.RenderOutputCache.BeginInvalidation` | crates/biei-core/src/render_cache.rs:171-172 | the gate is taken and the epoch advances |
| `RenderCache.RenderOutputCache.EndInvalidation` | crates/biei-core/src/render_cache.rs:173-177 | exactly the style's entries go and the gate is released |
| `RenderCache.RenderOutputCache.InvalidateStyle` | crates/biei-core/src/render_cache.rs:167-178 | when nothing reads in between, the epoch advances and exactly the style's entries go |
| `RenderCache.RenderOutputCache.RemoveFlight` | crates/biei-core/src/render_cache.rs:298-302 | the flight entry is removed and its channel handed on |
| `RenderCache.RenderOutputCache.NotifyFollowers` | crates/biei-core/src/render_cache.rs:303-305 | the removed channel is notified |
| `AddLayer.Identity` | crates/biei-core/src/render_cache.rs:371-383 | the appended frames of one or three components |
| `AddLayer.FramingInjective` | crates/biei-core/src/render_cache.rs:371-383 | length framing determines its components, for any content and any number of them |
| `AddLayer.IdentityInjective` | crates/biei-core/src/render_cache.rs:371-383 | two add-layer requests share an identity only if they are equal |
| `PoolState.MarkLoadedKeeps` | crates/biei-core/src/worker_pool.rs:157-172 | marking keeps the profile counts exact and the source lists sound |
| `PoolState.ClearLoadedKeeps` | crates/biei-core/src/worker_pool.rs:192-216 | clearing keeps the profile counts exact and the source lists sound |
| `PoolState.MarkSourceKeeps` | crates/biei-core/src/worker_pool.rs:174-190 | touching a source keeps set and recency list equal, duplicate-free and within 64 |
| `PoolState.TouchedKeeps` | crates/biei-core/src/worker_pool.rs:174-190 | a touched source is last; one source is forgotten, the oldest, exactly when the list was full and the source new |
| `PoolHistory.PredictionIsLatestDispatch` | crates/biei-core/src/worker_pool.rs:157-206 | for every history a worker is predicted to hold, and dated by, exactly its latest dispatch unless that very dispatch was cleared, and its generation counts its dispatches |
| `PoolHistory.AffinityIsRecent` | crates/biei-core/src/worker_pool.rs:174-191 | for every history the sources credited to a worker are the 64 most recent it was given since its predicted profile last changed |
| `PoolHistory.PoolIsHistory` | crates/biei-core/src/worker_pool.rs:517-530 | in every run of the worker protocol the pool is such a summary of its marks and clears |
| `PoolState.Retain` | crates/biei-core/src/worker_pool.rs:178-182 | keeps everything but one source, in order |
| `PoolState.EvictOldest` | crates/biei-core/src/worker_pool.rs:183-187 | drops from the front until a new source fits |
| `PoolState.SharedPool.constructor` | crates/biei-core/src/worker_pool.rs:146-155 | a pool of fresh workers |
| `PoolState.SharedPool.DecrementProfileCount` | crates/biei-core/src/worker_pool.rs:206-216 | one copy less, the entry gone at zero |
| `PoolState.SharedPool.MarkWorkerLoaded` | crates/biei-core/src/worker_pool.rs:157-172 | the whole pool state after marking, and the new generation |
| `PoolState.SharedPool.ClearWorkerIfLatest` | crates/biei-core/src/worker_pool.rs:192-204 | clears only for the worker's newest generation |
| `PoolState.SharedPool.MarkAddlayerSource` | crates/biei-core/src/worker_pool.rs:174-190 | the whole pool state after touching a source |
| `SourceCache.TouchCommutes` | crates/biei-core/src/worker.rs:129-137 | touching the bounded list is touching the unbounded recency list and cutting it |
| `SourceCache.RecencyOrder` | crates/biei-core/src/worker.rs:129-137 | the recency list is ordered by last touch |
| `SourceCache.Cache.constructor` | crates/biei-core/src/worker.rs:118-123 | an empty cache of at least one entry |
| `SourceCache.Cache.Contains` | crates/biei-core/src/worker.rs:125-127 | holds exactly the sources among the most recently touched, up to the capacity |
| `SourceCache.Cache.Touch` | crates/biei-core/src/worker.rs:129-137 | keeps the list equal to the recent end of everything touched |
| `SourceCache.Cache.Clear` | crates/biei-core/src/worker.rs:139-141 | forgets everything |
| `WorkerPick.BestAvailable` | crates/biei-core/src/worker_pool.rs:400-429 | the earliest worker of least score among those available below the hard limit; nobody exactly when there is none |
| `WorkerPick.EvictionIsLastResort` | crates/biei-core/src/worker_pool.rs:635-650 | a worker warm for another profile is picked only if none is fresh or warm below the soft limit |
| `WorkerPick.OnlyCopiesEvictedLast` | crates/biei-core/src/worker_pool.rs:652-679 | the only copy of a profile is evicted only if every equally good idle candidate is an only copy |
| `WorkerPick.ComfortIsUsed` | crates/biei-core/src/worker_pool.rs:635-679 | a warm worker below two thirds of the soft limit is always used, preferring the task's source, then the shorter queue |
| `WorkerPick.PreferenceOrder` | crates/biei-core/src/worker_pool.rs:635-652 | who is picked before whom by loaded profile, depth and limits: comfortably warm, fresh, warm below the soft limit, idle with another profile, warm below the hard limit, the rest |
| `WorkerPick.SourceThenQueue` | crates/biei-core/src/worker_pool.rs:668-679 | within one class the task's source decides, then the shorter queue |
| `WorkerPick.EvictionOrder` | crates/biei-core/src/worker_pool.rs:654-667 | among idle workers to evict: one with copies elsewhere, then the task's shape, then the most copies, then never or least recently used |
| `WorkerSafety.AdmissionConserved` | crates/biei-core/src/worker_pool.rs:434-478 | under every interleaving a worker's depth is the number of in-transit reservations and live completions, between zero and the hard limit |
| `WorkerSafety.AtMostOneRender` | crates/biei-core/src/worker_pool.rs:483-579 | at most one native render is started per process call, over any number of redispatches |
| `WorkerSafety.OneReply` | crates/biei-core/src/worker.rs:195-334 | no reply for a command never dequeued, exactly one for a dequeued command once its worker moves on, never two |
| `WorkerReplies.ReplyIsFate` | crates/biei-core/src/worker.rs:200-340 | in every run the reply is what happened: handed back exactly when the worker bounced the command, timed out exactly when its deadline elapsed in its stages or its completion was late, and otherwise the result its stages ended with |
| `WorkerReplies.ReceivedReply` | crates/biei-core/src/worker_pool.rs:567-577 | a caller handed its task back picks again with the same job, free to probe exactly the available workers; any other reply ends the call |
| `WorkerReplies.CallEndsExactly` | crates/biei-core/src/worker_pool.rs:483-579 | a call ends only by leaving, a failed send or a final reply; a full queue or a worker gone unavailable sets it back to picking |
| `WorkerReplies.ReservationExactly` | crates/biei-core/src/worker_pool.rs:432-459 | a compare-and-swap goes through exactly below the capacity, on an unchanged depth and without a spurious failure; a lost one reads the depth again and a full queue is given up |
| `WorkerReplies.HeldIsSound` | crates/biei-core/src/worker.rs:294-302 | in every run a worker that counts as set up for a job was set up for it by one of its own tickets, and not by one whose stages invalidated the renderer |
| `WorkerReplies.BouncedCallerPicksAgain` | crates/biei-core/src/worker.rs:211-223 | in every run, when a worker is to hand back a command its caller still waits for, the remaining steps are possible and end with the caller picking again |
| `WorkerSafety.SettledBeforeReply` | crates/biei-core/src/worker.rs:327-333 | an outcome or a redispatch is sent only after the reservation was given back |
| `WorkerSafety.LateIsNeverCompleted` | crates/biei-core/src/worker.rs:311-333 | a completion found past its deadline is answered only as a timeout, and its accounting settles |
| `WorkerSafety.LateWorkerIsHidden` | crates/biei-core/src/worker.rs:244-254 | a worker busy past its response deadline can neither be probed nor keep a reservation that raced in |
| `WorkerSafety.PoolStateExact` | crates/biei-core/src/worker_pool.rs:136-222 | in every run counts are exact multiplicities and source sets are their bounded recency lists |
| `WorkerSafety.AffinityNeedsProfile` | crates/biei-core/src/worker_pool.rs:192-222 | in every run a worker with no predicted profile has no source affinity |
| `WorkerWarmth.SentKept` | crates/biei-core/src/worker_pool.rs:517-549 | every step keeps the command sent last at the end of the queue, and once it has completed the worker is done with everything sent and holds its job |
| `WorkerWarmth.LastPredictedKept` | crates/biei-core/src/worker_pool.rs:111-131 | every step keeps: while the command sent last carries the newest generation and its prediction stands, the prediction is its profile and it is under way or completed |
| `WorkerWarmth.WarmAgreement` | crates/biei-core/src/worker_pool.rs:517-549 | in every run, for a worker with nothing outstanding: the prediction is true if the command sent last was not overtaken by a later generation, whatever happened before; and if that command completed, the prediction is true if and only if it is for the predicted profile |
| `WorkerOvertaking.OvertakingHappens` | crates/biei-core/src/worker_pool.rs:517-549 | from every fresh pool with an available worker and room for two there is a run that ends idle with a false prediction |
| `Ranking.TopCandidates` | crates/biei-core/src/dispatcher.rs:472-502 | the bounded insertion loop returns the first limit nodes of the stable descending sort of the eligible members |
| `Ranking.InsertPosition` | crates/biei-core/src/dispatcher.rs:484-488 | the first lighter entry |
| `Ranking.FullRankingIsRanked` | crates/biei-core/src/dispatcher.rs:481-494 | insertion in member order sorts by descending weight, keeping member order among equals |
| `Ranking.RankedUnique` | crates/biei-core/src/dispatcher.rs:481-494 | that sort is unique |
| `Ranking.BoundedIsPrefix` | crates/biei-core/src/dispatcher.rs:481-494 | bounded insertion keeps exactly a prefix of the full sort |
| `Ranking.SelectedIffRank` | crates/biei-core/src/dispatcher.rs:481-494 | a member is selected exactly when fewer than limit members rank ahead of it |
| `Ranking.RemovalIsLocal` | crates/biei-core/src/dispatcher.rs:472-502 | removing a member leaves the selection alone if it was not eligible or not selected; otherwise the gap closes and at most one node is added, at the end |
| `WarmTarget.WarmCandidate` | crates/biei-core/src/dispatcher.rs:441-470 | warm count, soft headroom and usability in one pass |
| `WarmTarget.WarmExactly` | crates/biei-core/src/dispatcher.rs:441-470 | a node is a warm candidate exactly when it accepts, holds the profile and has a warm worker below the soft limit or an empty one; its tickets are its warm workers |
| `WarmTarget.SpareExactly` | crates/biei-core/src/dispatcher.rs:441-470 | spare room and load of the warm workers add up to one soft limit each |
| `WarmTarget.WalkTickets` | crates/biei-core/src/dispatcher.rs:158-166 | every ticket below the total selects the candidate whose interval holds it |
| `WarmTarget.DrawsOnce` | crates/biei-core/src/dispatcher.rs:158-166 | a ticket belongs to one candidate only |
| `WarmTarget.TicketShare` | crates/biei-core/src/dispatcher.rs:150-166 | each candidate holds exactly as many tickets as it has warm workers |
| `WarmTarget.PairsAreUniform` | crates/biei-core/src/dispatcher.rs:180-184 | every ordered pair of different candidates comes from exactly one pair of draws |
| `WarmTarget.BetterOfTwo` | crates/biei-core/src/dispatcher.rs:185-204 | the roomier of the two sampled candidates, the first on a tie |
| `WarmTarget.SelectWarmTarget` | crates/biei-core/src/dispatcher.rs:141-207 | the loops choose the specified target under either strategy |
| `WarmTarget.SelectsIffWarm` | crates/biei-core/src/dispatcher.rs:141-207 | a target is chosen exactly when there is a warm candidate, and is one |
| `DrainSwap.DrainTargets` | crates/biei-core/src/dispatcher.rs:300-384 | counting, collecting, sorting and selecting yield the specified candidates |
| `DrainSwap.CountLoaded` | crates/biei-core/src/dispatcher.rs:313-323 | how many accepting workers hold each profile |
| `DrainSwap.DrainOrderIndependent` | crates/biei-core/src/dispatcher.rs:300-384 | the result is the same for every iteration order of the state map |
| `DrainSwap.DrainsAreJustified` | crates/biei-core/src/dispatcher.rs:325-384 | every selected worker is on an accepting node, may be evicted and is estimated in time |
| `DrainSwap.DrainEmptyIff` | crates/biei-core/src/dispatcher.rs:325-384 | nothing is selected exactly when no such worker exists |
| `DrainSwap.FirstIsPreferred` | crates/biei-core/src/dispatcher.rs:504-522 | the first worker drained is preferred to every other drainable one in time: only copies last, then the task's shape, the most copied profile, the shorter queue |
| `DrainSwap.EstimateExactly` | crates/biei-core/src/dispatcher.rs:112-127 | the estimate counts every queued task if and only if the depth is below 2^32, a queued task costs nothing, or the tasks counted after the cut already reach the longest duration |
| `DrainSwap.BoundedEstimateIsTrue` | crates/biei-core/src/dispatcher.rs:366-369 | with a configured drain bound of at most 2^32 every drainable worker is estimated truly |
| `DrainSwap.EstimateFails` | crates/biei-core/src/dispatcher.rs:112-127 | above that bound, a worker that tier 3 takes as draining in time and that does not |
| `Dispatcher.DecideTask` | crates/biei-core/src/dispatcher.rs:223-288 | the decision by the loops is the decision specified with sorts and intervals |
| `Dispatcher.DecideWithLocalState` | crates/biei-core/src/dispatcher.rs:209-216 | the decision over the view with the authoritative local entry |
| `Dispatcher.LocalIsAuthoritative` | crates/biei-core/src/dispatcher.rs:36-69 | what gossip says of a member deciding with its own state never changes the decision; a node that is no member decides from gossip alone |
| `Dispatcher.TargetsAccept` | crates/biei-core/src/dispatcher.rs:386-433 | at hop zero every target accepts and Forward is non-empty without this node; a forwarded task stays, without fallbacks |
| `Decisions.DecisionExactly` | crates/biei-core/src/dispatcher.rs:386-433 | the task stays exactly when this node is the first candidate or it was forwarded before; the hint is kept exactly for this node; fallbacks and targets are all other candidates in order |
| `Decisions.TiersNameTheBest` | crates/biei-core/src/dispatcher.rs:223-288 | the candidates of tiers 2 and 4, and those behind the warm target, are the members with room that no other member with room outranks, in rank order |
| `Decisions.HeaviestIsNamed` | crates/biei-core/src/dispatcher.rs:386-502 | a task not forwarded before that goes by weight is given to the member with room that outranks every other |
| `Dispatcher.TierExactly` | crates/biei-core/src/dispatcher.rs:223-288 | the tier that answers is the first one the view offers, and there is none exactly when no tier is offered |
| `Dispatcher.RejectExactly` | crates/biei-core/src/dispatcher.rs:223-288 | a task is rejected exactly when no member can admit it, no node is warm with room and draining is off or hopeless |
| `WarmPlan.RankAgreesWithDispatcher` | crates/biei-core/src/warm_plan.rs:206-220 | the planner's rank is within a depth exactly when the dispatcher would name the node among that many candidates over the same owners, repeated members included |
| `WarmPlan.CountRank` | crates/biei-core/src/warm_plan.rs:206-217 | the counting loop computes that rank from the first occurrence of the node |
| `WarmPlan.CandidateKeys` | crates/biei-core/src/warm_plan.rs:152-159 | each recommended key once |
| `WarmPlan.PlanWarm` | crates/biei-core/src/warm_plan.rs:115-237 | the loops produce a plan in the declarative sense: the gates in order, then the one best qualifying key |
| `WarmPlan.SkipsExactly` | crates/biei-core/src/warm_plan.rs:126-165 | exactly when each skip reason is given, in terms of readiness, queue depths, free workers and candidates, and when a profile is warmed |
| `WarmPlan.PlanIsUnique` | crates/biei-core/src/warm_plan.rs:187-247 | the plan depends on the set of recommended keys alone |
| `WarmPlan.FirmestClaimWins` | crates/biei-core/src/warm_plan.rs:221-247 | the warmed key qualifies, and no other qualifying key has a better rank, a stronger weight at the same rank, a lesser revision text at the same weight, or then an earlier mode or scale |
| `WarmPlan.QualifiesExactly` | crates/biei-core/src/warm_plan.rs:172-220 | a key qualifies exactly when its style resolves, no worker here holds that very profile, and at most one owner ranks ahead of this node |
| `WarmPlan.AtMostTwoWarm` | crates/biei-core/src/warm_plan.rs:172-220 | at most two accepting members of one view warm a given style id, mode and scale |
| `Gossip.RevisionRoundTrip` | crates/biei-core/src/types.rs:300-316 | a revision parses back from its text exactly when its id is not empty; ids may contain @ |
| `Gossip.RevisionValueInjective` | crates/biei-core/src/types.rs:300-303 | different revisions have different texts |
| `Gossip.KeyRoundTrip` | crates/biei-core/src/types.rs:795-803 | a worker key yields its id and field and is not the admission key |
| `Gossip.FromKvs` | crates/biei-core/src/types.rs:771-852 | one pass over the pairs decodes as specified |
| `Gossip.SnapshotKvs` | crates/biei-core/src/worker_pool.rs:236-245 | the loop encodes every slot |
| `Gossip.PartialSnapshotIsSound` | crates/biei-core/src/types.rs:771-852 | any part of a snapshot, in any order, decodes only to workers of that snapshot, each as published and at most once, and never to a false accepting state |
| `Gossip.VisibleExactly` | crates/biei-core/src/types.rs:829-846 | a worker is seen exactly when every key it needs has arrived |
| `Gossip.AdmissionFailsClosed` | crates/biei-core/src/types.rs:785-794 | a node is accepting exactly when it says so and that pair has arrived |
| `Gossip.FullSnapshotRoundTrip` | crates/biei-core/src/types.rs:1313-1331 | a complete snapshot decodes to exactly the published workers and admission state |
| `GossipMixture.MixtureIsPublishedByField` | crates/biei-core/src/types.rs:771-852 | from any mixture of rounds, each part of a decoded worker was published for that worker in some round |
| `GossipMixture.MixtureIsOneRound` | crates/biei-core/src/types.rs:771-852 | a mixture decodes to a slot as it stood if and only if every field that slot needs is held with its value |
| `GossipMixture.CrossRoundHappens` | crates/biei-core/src/types.rs:771-852 | two rounds and a part of the second delta that decode to a profile the worker never had |
| `Gossip.ReplayIsLatest` | crates/biei-core/src/node.rs:202-220 | for arbitrary snapshots, replaying all deltas rebuilds the latest one exactly when no key ever published is missing from it |
| `GossipPublisher.RevisionKeyInjective` | crates/biei-core/src/style_catalog.rs:156-160 | each slot of the announcement ring has its own gossip key |
| `GossipPublisher.RevisionsAreForeign` | crates/biei-core/src/style_catalog.rs:699-705 | no announcement is taken for worker state or for the admission key |
| `GossipPublisher.RingGrows` | crates/biei-core/src/style_catalog.rs:534-543 | whatever the catalog sees, a slot of the ring is overwritten and never emptied |
| `GossipPublisher.DeltasRebuildLatest` | crates/biei-core/src/node.rs:199-221 | whatever pool and catalog do between the rounds, replaying all deltas rebuilds the latest snapshot |
| `GossipPublisher.DeltasDecodeToLatest` | crates/biei-core/src/node.rs:199-221 | a peer that applied every delta decodes exactly the workers and the admission state of the last round |
| `Gossip.Publisher.constructor` | crates/biei-core/src/node.rs:201-201 | nothing sent yet |
| `Gossip.Publisher.Round` | crates/biei-core/src/node.rs:202-220 | one round sends exactly the difference, and replaying it keeps the peer in step |
| `Forwarding.RejectedExactly` | crates/biei-core/src/node.rs:451-459 | a forwarded task is rejected on arrival exactly when less than both hops and a millisecond were left |
| `Forwarding.BudgetExactly` | crates/biei-core/src/wire.rs:84-117 | the budget is the largest whole number of milliseconds that fits before the deadline with both hops, up to 2^32 - 1, and the hop count is one more, up to 255 |
| `Forwarding.AnswerInTime` | crates/biei-core/src/wire.rs:84-136 | otherwise an answer finished by the peer's deadline is back by the origin's, late by no more than the hops overran their estimate, whatever the clock offset |
| `Forwarding.ResponseRoundTrip` | crates/biei-core/src/wire.rs:268-310 | header and image survive framing; every proper prefix of the framed header is truncated |
| `Forwarding.OffsetsStayOrdered` | crates/biei-core/src/wire.rs:371-385 | an ordered timeline has ordered offsets, so an honest answer is never refused for its timeline |
| `Forwarding.OffsetsAreMillis` | crates/biei-core/src/wire.rs:371-385 | each offset is the whole milliseconds of its instant since arrival |
| `Forwarding.RebuiltInOrder` | crates/biei-core/src/wire.rs:441-456 | a rebuilt timeline is ordered, starts no earlier than the request and ends when the answer was received |
| `Forwarding.DurationsKeptExactly` | crates/biei-core/src/wire.rs:441-453 | the peer's durations are kept exactly when its stay fits between request and answer, else cut to that time |
| `Forwarding.TimelineSurvives` | crates/biei-core/src/wire.rs:371-453 | over the way there and back every duration since arrival is the peer's own, less than a millisecond short, whenever its stay fits between request and answer |

## Left out

- Style JSON validation, document schemas and timestamps: parsing around the protocol; a body is valid or not, as one predicate.
- Object-store back ends, URL parsing, base64 and SHA-256 internals: library code behind the assumptions above.
- Entity-tag text: depends on JSON escaping and a length cap.
- Inventory listing of styles, tilesets and namespaces: I/O; a scan takes its listing as a parameter.
- Time to live, weights and capacity of the render cache: covered by arbitrary eviction.
- Renderer internals, the repair supervisor and true native concurrency after a hard wedge: foreign calls; a stage ends in any way the code distinguishes.
- `hard_wedge_deadline` and the permit semaphores: a wedge may come at any time after the response deadline, a permit may be refused at any stage.
- The forward retry loop and fallback execution in `node.rs`: sequential effects around the decision and the wire modelled here.
- The announcement's JSON length is computed without escapes: ids that need escaping are longer on the wire.
- Metrics, tracing, authentication, CORS, configuration, console and deployment: plumbing without a state of their own.
- The ishikari tile service: short validators and thin cache wrappers.
- WorkerWarmth.WarmAgreement: says nothing of an overtaken last command that did not complete, because what the worker then holds is whatever it set up before.
- Gossip.FromKvs: the ascending order of the decoded workers is taken from the ordered builder map rather than computed by a loop.
- DrainSwap.DrainTargets: the library sort is the function `Sort`, not a loop.
