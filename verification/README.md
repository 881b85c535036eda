# UNOC backend: a verified model

UNOC simulates an optical access network. Its backend keeps graph-derived state (reachability,
L3 chains, optical paths, subscriber counts, metrics, addresses) consistent with a changing
topology. This project models that logic in Dafny 4.11 and proves what the services promise each
other. `dafny verify dfyconfig.toml` checks all of it.

## How it is organised

A database snapshot is a value (`Topology`, and `L3Trace.Db` with routes and addresses); rows that the
source reads in table order come as sequences. Services that change fields are classes, and their loops
are loops with invariants. Specification functions and predicates say what those compute, and
lemmas relate them over whole runs. Lemmas whose names end in `OnRows` or `Means` tie a specification to
the columns of the rows, with device kinds, link kinds, texts and constants written out.

| Part | Modules | Main results |
|---|---|---|
| Foundations | `Order`, `Graphs`, `Dijkstra`, `Bfs`, `Routes`, `SignedSearch`, `Sums`, `Types`, `Topology`, `Samples` | total orders behind every tie-break, searches that return first or nearest walks, order-independent sums |
| Status propagation | `Propagation`, `AdjacencyCache`, `GraphIndex`, `Incremental`, `FloodExact`, `CausalChain` | the flood is a least fixed point; incremental recompute is sound between two topologies |
| Recompute coalescer | `Coalescer`, `BatchRecompute` | no interleaving loses or repeats a request; what a batch does for each request in it |
| Projections and caches | `LogicalGraph`, `OpticalPath`, `Caches` | contraction preserves reachability; least attenuation; cached graphs and paths equal fresh ones |
| L3 | `L3Trace`, `L3Rows`, `L3Auto`, `L3Reach`, `Upstream`, `UpstreamMemo` | the trace is an orbit; automatic configuration makes it succeed; shortest upstream chains and their memo |
| Subscribers | `Tracers`, `Subscribers`, `EventLog` | conservation of counts; replaying the derived log gives back its source |
| Metrics and addresses | `Flow`, `Deltas`, `Metrics`, `Mac` | flow conservation; deltas over any run of ticks; unique addresses under faults and restarts |

## Where the code does less than its documentation says

The model follows the code. For each of these a lemma gives an input on which the promise fails, and another
says exactly when it holds.

- A change record may list a link id as a changed override (backend/services/graph_index.py:12-19), but it is
  dropped; the old container of a moved device is not dirtied: `Incremental.LinkOverrideIsDropped`,
  `Incremental.OldContainerIsMissed`; for all inputs `GraphIndex.OtherOverridesAreIgnored` and
  `GraphIndex.ContainersAreInvisible`. A covering change record (`Incremental.Covers`) makes recompute sound; the
  exact condition is stated for edges, `FloodExact.SoundIffEdgesInside`.
- The override fingerprint of the adjacency cache only counts overrides:
  `AdjacencyCache.CountsMissMovedOverride`, exactly `AdjacencyCache.SecondAccessIsFreshIff`.
- A full recompute request is narrowed when it is coalesced with a keyed one:
  `BatchRecompute.FullRequestIsNarrowed`, exactly `BatchRecompute.KeylessRequestIsCoveredIff`.
- `is_idle` can be true while a run is under way, on which backend/db.py:309-314 relies: before a drained run sets
  its flag, `Coalescer.IdleWhileBatchUnfinished`, and after another run has cleared it,
  `Coalescer.IdleWhileOtherRunExecutes`; exactly `Coalescer.IdleHidesRunIff`.
- `metrics_scheduled` can lose increments: `Coalescer.ScheduledMetricCanLoseCalls`, exactly
  `Coalescer.MetricExactIffSerial`.
- `get_logical_graph` ignores its inputs when a graph is stored, so readers that pass different records
  (backend/api/endpoints/tools.py:32-54 keeps forced-down devices, the upstream resolver drops them) are served
  each other's graph, and the retry loop of the upstream resolver can accept a stale one:
  `Caches.ForcedDownDeviceIsServed`, `Caches.RetryAcceptsStaleGraph`, exactly `Caches.SecondReaderIsServedTheFirst`.
- An upstream verdict is stored without a look at the version, and served between a commit and its bump
  (backend/api/endpoints/links_helpers_override.py:55-58 commits first; backend/services/provisioning_service.py:368-387
  commits L3 rows after its bump): `UpstreamMemo.StaleVerdictIsServed`, exactly `UpstreamMemo.StoreIsSafeIff` and
  `UpstreamMemo.HitIsSafeIff`.
- The adjacency used for contraction accepts records of any kind, although its comment speaks of optical
  classes: `OpticalPath.MgmtLinkContracts`, exactly `OpticalPath.AdjacenciesAgreeIff`. The creation endpoints
  store only FIBER links between optical devices (backend/api/endpoints/links_helpers_create.py:174,
  backend/link_rules.py:98-104), under which both agree by `OpticalPath.ContractionMatchesResolver`; the builder
  itself takes records of any kind, and the link table admits MGMT rows from elsewhere.
- `_resolve_peer_via_if` falls back to the least passable link when no peer bears the next-hop address, although
  the comment at its call treats a mismatch as unresolved: `L3Trace.UnborneNextHopIsCrossed`, exactly
  `L3Trace.ChosenBearsIff`.
- `_path_total_loss` adds the insertion loss of any interior device, the search only that of passives:
  `OpticalPath.LossyOntDiffers`, exactly `OpticalPath.TotalLossDiffers`.
- An infinite utilization is put into bucket 3, below a finite one of 101 percent; exactly
  `Deltas.InfiniteRanksBelow`.
- A first reading that is negative is stored as zero: `Metrics.NegativeFirstReadingIsLost`, exactly
  `Deltas.StoredIsClose`.
- The persistent MAC counter does not survive a failed first load, `Mac.FailedLoadRepeats`, exactly
  `Mac.FirstCallRepeatsIff`, nor a lost seed row, `Mac.LostSeedRepeats`, exactly `Mac.RestartSafeIff`; both over whole
  runs, `Mac.RunSafeIff`.

## Model

| member | source | states |
|---|---|---|
| `Propagation.BuildAdjacency` | backend/services/status_recompute.py:118-148 | The rebuilt adjacency has exactly the edges of passable, physically viable links and of container parents, in both directions. |
| `Propagation.Flood` | backend/services/status_recompute.py:208-294 | The flood ends and returns the least set that contains the anchors and is closed under adjacency into up-candidates, whatever the queue order; on the columns: gateways anchor, POPs and sites only without any gateway row, members are not forced away from UP and active ones are provisioned, every adjacent device with such columns is a member, and every member that is no anchor has an adjacent member. |
| `Propagation.ReachedMeans` | backend/services/status_recompute.py:208-294 | Any least flooded set has these columns, and every smaller set with the anchors misses an adjacent conducting device. |
| `Topology.AdjEdgeOnRows` | backend/services/status_recompute.py:118-148 | An edge is a viable link row that is forced up, or not forced and UP between devices that exist and are not forced down, or a non-empty container column. |
| `Propagation.ReachedIsUnique` | backend/services/status_recompute.py:278-294 | That least set is unique, so the traversal order cannot matter. |
| `Propagation.ReachedByConduit` | backend/services/status_recompute.py:278-294 | A device is reachable if and only if a chain of adjacent up-candidates joins it to an anchor seed. |
| `AdjacencyCache.GraphCache.Ensure` | backend/services/status_recompute.py:51-157 | A hit returns the stored adjacency, a miss one that represents the current rows; the new key is the version and the override counts. |
| `AdjacencyCache.CountsAgreeIff` | backend/services/status_recompute.py:65-99 | Two snapshots have the same counts if and only if equally many devices and equally many links are forced up, and forced down. |
| `AdjacencyCache.RunBuiltEarlier` | backend/services/status_recompute.py:103-157 | In every run of accesses the stored adjacency was built from a topology seen earlier under the same key. |
| `AdjacencyCache.RunIsFresh` | backend/services/status_recompute.py:103-157 | If equal keys imply equal edges along the run, every access returns the adjacency of its own topology. |
| `AdjacencyCache.RunIsTrusted` | backend/services/status_recompute.py:103-157 | The same ahead of the next access: what is stored can be trusted for the next topology. |
| `AdjacencyCache.SecondAccessIsFreshIff` | backend/services/status_recompute.py:103-115 | Under an unchanged key the second of two accesses has the right adjacency if and only if no edge changed in between, and the right device ids if and only if those did not change. |
| `AdjacencyCache.CountsMissMovedOverride` | backend/services/status_recompute.py:65-99 | Moving a DOWN override from one link to another keeps the counts and changes the edges, so only a version bump protects the cache. |
| `GraphIndex.GraphIndex.Build` | backend/services/graph_index.py:58-91 | The index describes the snapshot: resolved link ends, symmetric adjacency over all devices, and for each device the region id made of the least device and the number of the devices connected to it; equal ids exactly for connected devices. |
| `GraphIndex.EndsOfMeans` | backend/services/graph_index.py:62-84 | A link is indexed if and only if both its interface rows name a device, under those devices in the order of its ends. |
| `GraphIndex.GraphIndex.ComputeRegions` | backend/services/graph_index.py:93-112 | Every indexed device is labelled with the id of its region: root the least reachable device, size the number of reachable devices. |
| `GraphIndex.RegionIdDeterminesRoot` | backend/services/graph_index.py:110-112 | Region ids are unambiguous: equal strings have the same root and size, even if device ids contain colons. |
| `GraphIndex.RegionText` | backend/services/graph_index.py:110-112 | The printed form: root A with twelve devices is r:A:12. |
| `Order.DigitsDenote` | backend/services/graph_index.py:110-112 | A printed number reads back as itself, in decimal digits without a leading zero. |
| `GraphIndex.SameRegionIffConnected` | backend/services/graph_index.py:93-112 | Two devices get the same region id if and only if they are connected. |
| `GraphIndex.GraphIndex.DirtySetForChange` | backend/services/graph_index.py:133-160 | The dirty devices are exactly the touched devices, the ends of changed links and all their neighbours; the region is that of the least dirty device. |
| `GraphIndex.DirtyOnRows` | backend/services/graph_index.py:133-160 | On the columns: listed devices, known devices with a listed override and ends of added, updated or deleted links, and whatever a link row joins to one of them. |
| `Incremental.SeedFrontier` | backend/services/status_service.py:139-159 | The seeds are the dirty devices and the present ends of dirty links. |
| `Incremental.AffectedComponent` | backend/services/status_service.py:184-199 | The sorted expansion returns the least set that contains the seeds and is closed under adjacency. |
| `Incremental.RecomputeDirty` | backend/services/status_service.py:139-199 | Expands over the cached adjacency; whenever that can be trusted the re-evaluated devices are the least closed set around the frontier, and all devices when there is no seed. |
| `Incremental.IncrementalSound` | backend/services/status_service.py:139-199 | Between two topologies whose difference the change record covers, with the same backbone flag, no device outside the affected component changes its anchor reachability. |
| `Incremental.RecomputeAfterChange` | backend/services/status_service.py:102-199 | Index, dirty set, cached adjacency and expansion together: under a trusted cache exactly the component of the dirty set is re-evaluated, and devices left out after a covered change keep their reachability. |
| `Incremental.RecomputedMeans` | backend/services/status_service.py:102-199 | On the columns: the least set around the dirty devices and the present ends of changed links that no adjacency of the new rows leaves, or all devices when there is no such start. |
| `GraphIndex.OtherOverridesAreIgnored` | backend/services/graph_index.py:142-150 | Ids listed as changed overrides that are not indexed devices, such as link ids, never change the dirty set. |
| `GraphIndex.ContainersAreInvisible` | backend/services/graph_index.py:133-160 | The dirty set does not depend on which containers devices are in, so leaving one never dirties it. |
| `Incremental.LinkOverrideIsDropped` | backend/services/graph_index.py:142-150 | A link id listed only as a changed override is ignored: after a concrete change every set that is re-evaluated omits a device whose reachability changed. |
| `Incremental.OldContainerIsMissed` | backend/services/graph_index.py:142-150 | Moving a device out of a container does not dirty the old container: after a concrete move every set that is re-evaluated omits it, although its reachability changed. |
| `FloodExact.SoundIffEdgesInside` | backend/services/status_service.py:184-199 | For a component that no new edge leaves: reachability outside it is right for all anchors and candidates if and only if every changed edge between two devices lies inside it. |
| `FloodExact.CoveredEdgesInside` | backend/services/graph_index.py:133-160 | A covering change record puts every changed edge inside the affected component. |
| `FloodExact.CoveredIsSound` | backend/services/status_service.py:139-199 | Hence a covered change is evaluated soundly for every choice of anchors and candidates that differs only inside the component. |
| `CausalChain.BuildDepGraph` | backend/services/status_service.py:347-402 | Successor lists hold exactly the devices joined by a passable link, in both directions. |
| `CausalChain.DetectChain` | backend/services/status_service.py:312-344 | The affected devices are the least set containing the changed ones and closed downstream of spreading devices; each gets a simple path from a changed device on which every device but the last spreads. |
| `CausalChain.ArcOnRows` | backend/services/status_service.py:347-440 | On the columns: a change goes from a device without override, provisioned if active, over a passing link row to another existing device. |
| `CausalChain.PathExtends` | backend/services/status_service.py:333-338 | Overwriting the path of a device that is queued again keeps it a simple causal path. |
| `BatchRecompute.RunBatch` | backend/services/recompute_coalescer.py:132-185 | Over a trusted cache, a batch re-evaluates the component of the devices and links its keys name, or everything when no key leads to a device. |
| `BatchRecompute.SeedOnRows` | backend/services/recompute_coalescer.py:150-181 | A key starts at the device it names; a key that names no device starts at the ends of the link it names. |
| `BatchRecompute.BatchIsJoined` | backend/services/recompute_coalescer.py:150-181 | A batch with a seed re-evaluates exactly the devices joined to a seed by propagation edges. |
| `BatchRecompute.KeyedRequestIsCovered` | backend/services/recompute_coalescer.py:150-181 | Coalescing never narrows a request that has a seed of its own. |
| `BatchRecompute.KeylessRequestIsCoveredIff` | backend/services/recompute_coalescer.py:168-185 | A request for a full recompute keeps its meaning in a batch if and only if no other key has a seed or every device is joined to one. |
| `BatchRecompute.FullRequestIsNarrowed` | backend/services/recompute_coalescer.py:168-185 | A concrete batch in which a full request no longer re-evaluates a device. |
| `Coalescer.SharedState.Schedule` | backend/services/recompute_coalescer.py:196-214 | The locked section of a request as one step of the protocol: pending sets grow, and a timer starts exactly when none is set. |
| `Coalescer.SharedState.Drain` | backend/services/recompute_coalescer.py:95-100 | The first locked section of a run hands over all pending scopes and keys and clears timer and sets. |
| `Coalescer.SharedState.TakeTimer` | backend/services/recompute_coalescer.py:219-227 | The locked section of a flush takes the timer and leaves what is pending. |
| `Coalescer.SharedState.Stop` | backend/services/recompute_coalescer.py:81-89 | Stop discards everything pending and takes the timer. |
| `Coalescer.RunKeepsInv` | backend/services/recompute_coalescer.py:80-228 | Every interleaving of schedule, timer, flush, run and stop steps keeps the protocol invariant. |
| `Coalescer.NoLostRequest` | backend/services/recompute_coalescer.py:80-228 | Each request is in exactly one of pending, handed to one drain that names its scope and key, or discarded; nothing is pending without a live timer or run; requests equal timers started plus coalesced. |
| `Coalescer.FateIsFinal` | backend/services/recompute_coalescer.py:80-228 | A request that was handed to a run or discarded stays so: it is executed at most once. |
| `Coalescer.CancelledNeverFires` | backend/services/recompute_coalescer.py:81-89 | In every later run, the timer that a stop or a flush took never fires; the other armed timers are left alone. |
| `Coalescer.SystemSettles` | backend/services/recompute_coalescer.py:92-100 | Timer and drain steps are bounded by the work owed, one is possible while work is owed, and at the end everything pending has been handed to a run. |
| `Coalescer.ScheduledMetricBound` | backend/services/recompute_coalescer.py:195-195 | The unlocked counter never exceeds the number of finished increments. |
| `Coalescer.SerialMetricIsExact` | backend/services/recompute_coalescer.py:195-195 | Along a run without overlaps the counter equals the finished increments at every state, also while one is under way. |
| `Coalescer.MetricExactIffSerial` | backend/services/recompute_coalescer.py:195-195 | Once no call is between read and write, the counter is exact if and only if no two increments overlapped. |
| `Coalescer.ScheduledMetricCanLoseCalls` | backend/services/recompute_coalescer.py:195-195 | Two overlapping calls can leave the counter at one. |
| `Coalescer.IdleMeansNothingAsked` | backend/services/recompute_coalescer.py:239-247 | When idle is reported, no pending request asked for a scope or key. |
| `Coalescer.HistoryOfRuns` | backend/services/recompute_coalescer.py:95-129 | The executing flag is set if and only if some run began since one last finished; a run is under way if and only if it drained and has not finished. |
| `Coalescer.IdleHidesRunIff` | backend/services/recompute_coalescer.py:239-247 | Idle is reported while a run has drained and not finished if and only if nothing is asked for and no run began since one last finished. |
| `Coalescer.IdleWhileOtherRunExecutes` | backend/services/recompute_coalescer.py:127-129 | A run that finishes clears the flag of another that is executing: idle is reported while that one runs. |
| `Coalescer.IdleWhileBatchUnfinished` | backend/services/recompute_coalescer.py:101-107 | Idle can be reported between a drain and the setting of the executing flag. |
| `Dijkstra.Search` | backend/services/pathfinding.py:229-262 | Settles exactly the reachable nodes, each with the walk that is first by cost, hops and ids. |
| `Dijkstra.Relax` | backend/services/pathfinding.py:248-258 | Scanning the neighbours of a settled node keeps every heap entry a walk and every tentative walk no later than any extension of a settled one. |
| `LogicalGraph.ShortestOpticalPath` | backend/services/pathfinding.py:229-262 | None exactly when no other target is reachable; else the walk with fewest hops to any target and the least id tuple among those. |
| `LogicalGraph.FirstPathShape` | backend/services/pathfinding.py:229-262 | The chosen path has at least one hop, visits no node twice and has no target in its interior. |
| `Order.LexLtMeaning` | backend/services/pathfinding.py:259-262 | Of two tuples the smaller is the one with the smaller id at the first place where they differ, or the one that ends there. |
| `Order.IdLtMeaning` | backend/services/pathfinding.py:248-250 | Of two ids the smaller is the one with the smaller character at the first place where they differ, or the one that ends there. |
| `LogicalGraph.BuildOpticalAdjacency` | backend/services/pathfinding.py:216-227 | Joins two optical devices exactly when a link record of any kind joins them. |
| `LogicalGraph.AddLinkEdges` | backend/services/pathfinding.py:171-203 | Edges between nodes exist exactly for link records of the given kinds, each labelled with the id of the last such record. |
| `LogicalGraph.ContractOptical` | backend/services/pathfinding.py:264-287 | Adds, without overwriting, one synthetic edge for each ONT to the end of its first optical path. |
| `LogicalGraph.ContractsToOne` | backend/services/pathfinding.py:259-272 | The end of the first optical path is unique: an ONT is contracted onto one OLT. |
| `LogicalGraph.AddRelaxedEdges` | backend/services/pathfinding.py:292-311 | Relaxed mode adds exactly the edges from OLTs and AON switches to the least core router. |
| `LogicalGraph.BuildLogicalGraph` | backend/services/pathfinding.py:168-312 | Nodes, edges and labels of the projection, on the columns of the records: which device kinds, which link kinds, the first optical walk of each ONT, the least core router in relaxed mode, and the text of every label; an ONT has an OLT neighbour if and only if it reaches one over optical devices. |
| `LogicalGraph.LogicalGraphMeans` | backend/services/pathfinding.py:33-50 | Any graph with the nodes, edges and labels of the projection has exactly the eight device kinds as nodes, the five link kinds, contractions and relaxed edges as edges, and the label texts of the code. |
| `LogicalGraph.LogicalGraphUnique` | backend/services/pathfinding.py:168-312 | Records determine the logical graph completely, labels and synthetic edges included. |
| `LogicalGraph.StrictEdgeIsReal` | backend/services/pathfinding.py:168-290 | In strict mode the ends of every edge are joined by actual link records. |
| `LogicalGraph.LogicalWalkExpands` | backend/services/pathfinding.py:168-290 | Every strict logical walk expands to a walk over link records that passes its nodes in order: no phantom connectivity. |
| `OpticalPath.BuildOpticalGraph` | backend/services/pathfinding.py:133-165 | Nodes are the OLTs, ONTs and passives; edges exactly the optical or raw fiber records between them, each labelled with the last one. |
| `LogicalGraph.LinkGraphUnique` | backend/services/pathfinding.py:133-165 | Records determine the optical graph completely, labels included. |
| `OpticalPath.AdjacenciesAgreeIff` | backend/services/pathfinding.py:216-227 | The adjacency used for contraction is that of the optical graph if and only if every two optical devices that a record joins are also joined by one of an optical kind. |
| `OpticalPath.ContractionMatchesResolver` | backend/services/pathfinding.py:264-287 | Under that condition an ONT has an OLT neighbour in the logical graph if and only if the resolver reaches an OLT. |
| `OpticalPath.MgmtLinkContracts` | backend/services/pathfinding.py:220-227 | An ONT joined to an OLT by a management record only is contracted, and the resolver finds no OLT. |
| `SignedSearch.Search` | backend/services/optical_path_resolver.py:221-226 | With weights of any sign: every reachable node gets a cheapest walk, or the search fails, which takes a negative weight. |
| `SignedSearch.CheapestMeansNoGain` | backend/services/optical_path_resolver.py:221-226 | If the search succeeds, no loop in reach has negative cost. |
| `OpticalPath.CostToOlt` | backend/services/optical_path_resolver.py:208-219 | The Dijkstra distance to an OLT is the sum of segment losses plus insertion losses of the passive interior. |
| `OpticalPath.TotalLossDiffers` | backend/services/optical_path_resolver.py:137-150 | The path total function exceeds the reported attenuation by exactly the insertion loss of interior devices that are not passive. |
| `OpticalPath.LossyOntDiffers` | backend/services/optical_path_resolver.py:137-150 | A cheapest path through another ONT with insertion loss on which the two totals differ. |
| `OpticalPath.OnlyPassivesLose` | backend/services/optical_path_resolver.py:137-150 | That difference is zero when only passives carry insertion loss. |
| `OpticalPath.SegmentsFollowPath` | backend/services/optical_path_resolver.py:175-182 | Segments follow the path hop by hop and their losses add up to the path's. |
| `OpticalPath.PickFirst` | backend/services/optical_path_resolver.py:235-260 | The chosen candidate precedes every other by attenuation, length, hops and OLT id. |
| `OpticalPath.RanksMeans` | backend/services/optical_path_resolver.py:257-258 | Less attenuation, then fewer kilometres, then fewer hops, then the smaller OLT id. |
| `OpticalPath.AttenuationMeans` | backend/services/optical_path_resolver.py:108-219 | The cost and the length of a path are the sums over its hops of length times attenuation per km of the link row, insertion loss of each passive entered, and kilometres. |
| `OpticalPath.ResolvePath` | backend/services/optical_path_resolver.py:190-270 | Fails only if some loss is negative; otherwise a result exists exactly when an OLT is reachable, its attenuation is minimal over all walks to any OLT, and its segments and passive interior explain it. |
| `OpticalPath.ResolutionMeans` | backend/services/optical_path_resolver.py:175-270 | A resolution names an OLT, its total is the attenuation of its path summed over the rows, and each segment names the link and the loss of its hop. |
| `OpticalPath.SameTotal` | backend/services/optical_path_resolver.py:258-270 | The attenuation does not depend on which of several cheapest paths the library returned. |
| `OpticalPath.FindingDecides` | backend/services/optical_path_resolver.py:235-270 | What the library finds determines the whole outcome, OLT and segments included. |
| `Caches.PathfindingStore.BumpVersion` | backend/services/pathfinding.py:92-107 | Empties both graph slots, the mode flag and the memoised optical paths and advances the version. |
| `Caches.PathfindingStore.GetOpticalGraph` | backend/services/pathfinding.py:112-118 | Serves the stored optical graph or a fresh build of the records passed, which it stores. |
| `Caches.PathfindingStore.GetLogicalGraph` | backend/services/pathfinding.py:120-130 | Serves the stored graph if it has the requested mode; otherwise builds from the records passed. |
| `Caches.PathfindingStore.ResolveOpticalPath` | backend/services/optical_path_resolver.py:190-198 | Serves the memoised result or resolves on the store's optical graph and memoises it, also when there is none; a failure is not memoised. |
| `Caches.StepFresh` | backend/services/pathfinding.py:92-130 | Each commit, bump, read, resolution and eviction keeps cached values equal to fresh ones, and a read returns the fresh value. |
| `Caches.RunFresh` | backend/services/pathfinding.py:77-130 | In every run in which commits bump before the next read and reads pass current records, each graph read (across mode switches) equals every fresh build, and each memoised outcome equals every fresh one with the same graph library, OLT and segments included. |
| `Caches.FreshBuildsAgree` | backend/services/pathfinding.py:133-312 | Two fresh builds of the same records are the same graph, logical and optical, labels included. |
| `Caches.FreshResolutionsAgree` | backend/services/optical_path_resolver.py:190-270 | Two fresh resolutions over one database with the same graph library have the same outcome. |
| `Caches.FreshTotalsAgree` | backend/services/optical_path_resolver.py:190-270 | With two different libraries that do not fail they still have the same verdict and attenuation. |
| `Caches.SecondReaderIsServedTheFirst` | backend/services/pathfinding.py:120-130 | Two readers with different records share one slot: the second gets the graph of its own records if and only if both project to the same nodes, edges and labels. |
| `Caches.ForcedDownDeviceIsServed` | backend/services/dependency_resolver_core.py:79-133 | A reader that leaves out a forced-down device is served a graph that contains it. |
| `Caches.RetryAcceptsStaleGraph` | backend/services/dependency_resolver_core.py:146-166 | A commit between collecting records and fetching makes the loop retry, but the retry accepts a graph of the old records. |
| `UpstreamMemo.UpstreamCache.Find` | backend/services/dependency_resolver_core.py:237-246 | A lookup at another version empties the memo and relabels it; an entry of the right version is served. |
| `UpstreamMemo.UpstreamCache.Put` | backend/services/dependency_resolver_core.py:315-321 | A result goes into whatever map is current, without a look at the version. |
| `UpstreamMemo.StoreIsSafeIff` | backend/services/dependency_resolver_core.py:315-321 | Storing a verdict of version v into a map of version m while the topology is at version n keeps a current map right in every world if and only if m < n, or v = n and no commit was waiting for its bump when it was computed. |
| `UpstreamMemo.StoreKeepsLabelsIff` | backend/services/dependency_resolver_core.py:315-321 | The map holds only verdicts of its own version, in every world, if and only if v = m and no commit was waiting. |
| `UpstreamMemo.HitIsSafeIff` | backend/services/dependency_resolver_core.py:237-246 | A hit on a right map serves what the committed database says, in every world, if and only if no commit is waiting for its bump. |
| `UpstreamMemo.CommitBeforeBumpIsServed` | backend/services/dependency_resolver_core.py:237-246 | Any verdict stored before a commit is served between that commit and its bump. |
| `UpstreamMemo.LateStoreIsServed` | backend/services/dependency_resolver_core.py:227-246 | Any verdict that was right before a change can be served after it, once an evaluation of another device has moved the memo on. |
| `UpstreamMemo.StaleVerdictIsServed` | backend/services/dependency_resolver_core.py:315-321 | Two concrete runs in which a device counts as connected after its only uplink was cut: before the bump, and after a late store. |
| `UpstreamMemo.RunServesRight` | backend/services/dependency_resolver_core.py:227-321 | If every store is in time and no hit comes between a commit and its bump, each hit has the verdict of every fresh evaluation of the committed database. |
| `L3Trace.ChosenLink` | backend/services/dependency_resolver_trace.py:68-104 | No link only if none is passable; else the link that leads to the next-hop address first and has the least id. |
| `L3Trace.ChosenBearsIff` | backend/services/dependency_resolver_trace.py:75-95 | The chosen link leads to the next-hop address if and only if some passable link at the interface does. |
| `L3Trace.UnborneNextHopIsCrossed` | backend/services/dependency_resolver_trace.py:227-239 | A router whose next hop nobody bears still hops to the device at the end of its link. |
| `L3Trace.Preferred` | backend/services/dependency_resolver_trace.py:138-183 | The first router among the upstream candidates, or the first candidate when there is no router. |
| `L3Trace.ScanRoutes` | backend/services/dependency_resolver_trace.py:203-216 | Candidates are exactly the default routes over own interfaces, all with an interface that is up and a next hop. |
| `L3Trace.BestRoute` | backend/services/dependency_resolver_trace.py:221-222 | Least by distance, metric and id. |
| `L3Trace.HopIsLink` | backend/services/dependency_resolver_trace.py:106-239 | Each hop crosses a traversable link to an existing device. |
| `L3Rows.NextHopMeans` | backend/services/dependency_resolver_trace.py:106-239 | Which row decides a hop: forced-down, gateway and VRF columns first; for a router the first unusable default route row or the best one by distance, metric and id, then the least link row that leads to the next-hop address, else the least; for another device the first router, else the first device, across its port rows and link rows in order; and each reason for going no further. |
| `L3Rows.AccessHopMeans` | backend/services/dependency_resolver_trace.py:120-190 | A device that is no router hops to the first router across its port rows and, per port, link rows in table order, to the first device at all if no router is across any of them, and is stuck exactly without ports or without a crossable link. |
| `L3Rows.RouterHopMeans` | backend/services/dependency_resolver_trace.py:192-239 | A router takes its default route of least distance, metric and id, unless an earlier row of its own has a port that is down or no next hop; it leaves by the chosen link row, and each reason for being stuck is given by the rows. |
| `L3Rows.ChosenMeans` | backend/services/dependency_resolver_trace.py:68-104 | The chosen row is the least crossable one whose other end bears the next-hop address, or failing any the least crossable one; none is chosen only if none can be crossed. |
| `L3Trace.TraceOutcome` | backend/services/dependency_resolver_trace.py:51-241 | The chain follows next hops from the device without repetition before its last entry, and the last device explains the verdict. |
| `L3Trace.TraceReachesIff` | backend/services/dependency_resolver_trace.py:51-241 | A trace succeeds with a chain if and only if that chain is the simple walk along next hops from the device to a gateway. |
| `L3Trace.SuffixIsTrace` | backend/services/dependency_resolver_trace.py:106-239 | Every suffix of a successful chain is the trace of its first device. |
| `L3Trace.ReachedChainIsSound` | backend/services/dependency_resolver_trace.py:16-241 | A successful chain is simple, runs over traversable links, ends at a backbone gateway and holds no forced-down device and no router without VRF. |
| `L3Trace.TraceIsOrbit` | backend/services/dependency_resolver_trace.py:106-108 | The chain is an initial piece of the orbit of the next-hop function, and a loop is reported if and only if the orbit revisits a device. |
| `L3Auto.PairEndsDiffer` | backend/services/provisioning_l3_auto.py:61-78 | The two hosts of a link's /31 (section 2.1 of RFC 3021) differ. |
| `L3Auto.Session.AutoConfigure` | backend/services/provisioning_l3_auto.py:26-195 | Commits the configured database when some uplink exists, leaves the VRF flushed but uncommitted when none does, rolls back a failed commit, and lets a clash of addresses escape; what the session then sees differs from before as `L3Auto.ConfigureOnRows` says. |
| `L3Auto.ConfigureOnRows` | backend/services/provisioning_l3_auto.py:39-187 | Every device row is unchanged, apart from the router gaining the mgmt VRF when it had none; only ports on its uplinks come up; each added address, neighbour and default route is one that an uplink row asks for (even host for the lower port, own VRF, the peer its non-zero VRF or else that of the router, distance 1) and that no earlier row makes superfluous; and everything asked for is there. |
| `L3Auto.ConfigureFailsIff` | backend/services/provisioning_l3_auto.py:80-97 | It fails if and only if, after the rows before it, some uplink asks for an address that is taken in its VRF at a port that has none. |
| `L3Auto.ConfigureIsIdempotent` | backend/services/provisioning_l3_auto.py:26-187 | From any database, a second run of a successful configuration changes nothing. |
| `L3Auto.LinksSettle` | backend/services/provisioning_l3_auto.py:132-187 | After the loop every uplink is settled, and no row was removed or changed on the way. |
| `L3Reach.AllFit` | backend/services/provisioning_l3_auto.py:54-187 | On an unconfigured network with distinct /31 pairs, configuring devices in any order never fails and finishes each. |
| `L3Reach.CoreReachesBackbone` | backend/services/provisioning_l3_auto.py:145-186 | After configuring, every core linked to a backbone traces to exactly [core, backbone]. |
| `L3Reach.EdgeReachesBackbone` | backend/services/provisioning_l3_auto.py:145-186 | Every edge whose core neighbours all have a backbone link traces to exactly [edge, core, backbone]. |
| `L3Reach.RoutesMeetTheirNextHop` | backend/services/provisioning_l3_auto.py:170-186 | With at most one link per interface, the next hop of every default route is an address of the upstream end, and the trace chooses that uplink. |
| `Upstream.CollectLinks` | backend/services/dependency_resolver_core.py:79-133 | Records exactly the link rows that are forced up, or not forced and UP, between devices that are not forced down, found by interface row or by the "-if0" name. |
| `Upstream.RecordsKeepOrder` | backend/services/dependency_resolver_core.py:90-125 | The records stand in the order of their rows. |
| `Upstream.UpstreamNodesOnRows` | backend/services/dependency_resolver_core.py:79-90 | The nodes of the graph are the routing and access devices that are not forced down, with their kinds. |
| `Upstream.EvaluateAccess` | backend/services/dependency_resolver_core.py:262-311 | Succeeds if and only if a logically reachable router has a successful trace; the chain is the first by length and ids among one shortest candidate per such router; failures are classified exactly. |
| `Upstream.ChainViaMeans` | backend/services/dependency_resolver_core.py:287-306 | A candidate chain is a shortest logical path to a router followed by the anchored chain of that router. |
| `Upstream.EvaluateRouter` | backend/services/dependency_resolver_core.py:253-261 | Found with a chain if and only if the chain is the anchored walk from the router, and the anchor is its last device, a gateway; otherwise the chain starts at the router, follows next hops, and its last device gives the reason or closes the loop. |
| `Upstream.Evaluate` | backend/services/dependency_resolver_core.py:215-311 | From rows to verdict: for a router the verdict of `EvaluateRouter`, chain and reason included; for any other device the verdict of the survey on the logical graph built from the rows. |
| `Upstream.VerdictsAgree` | backend/services/dependency_resolver_core.py:262-311 | A database determines success, failure reason and chain length, whatever shortest paths the library returns. |
| `Upstream.GatewayInReachIsFound` | backend/services/dependency_resolver_core.py:268-311 | With a backbone gateway in reach the verdict is success, whatever routes and addresses are. |
| `Upstream.L3DecidesOnlyWithoutGateway` | backend/services/dependency_resolver_core.py:287-311 | Over the same devices and links, L3 state decides success only where no gateway is in reach, through a router whose trace it changes. |
| `Upstream.ChosenChainRepeatsNoRouter` | backend/services/dependency_resolver_core.py:287-311 | The chosen chain visits no router of the logical graph twice, since leaving at the first visit would be shorter. |
| `Routes.FindShortest` | backend/services/dependency_resolver_core.py:296-300 | A walk that no other between the same ends undercuts, or none exactly when there is no walk. |
| `Bfs.FirstReached` | backend/services/subscriber_model.py:80-102 | The first target taken from the queue is a nearest one; none is reported exactly when no target is reachable. |
| `Tracers.BuildHops` | backend/services/subscriber_model.py:71-78 | Interface hops are exactly links and, inside passives, ONTs and (for the service tracer) CPEs, sibling interfaces. |
| `Tracers.TraceAnchor` | backend/services/subscriber_model.py:80-102 | The anchor port is a PON port of an OLT at minimal interface-hop distance; none exactly when no such port is reachable. |
| `Tracers.PhysicalAnchorIsServed` | backend/services/count_semantics.py:56-87 | Whatever the physical tracer reaches, the service tracer reaches too, in at most as many hops. |
| `Tracers.TraceDirectAon` | backend/services/subscriber_model.py:104-113 | The least AON switch port plugged into the first own interface, by name and id, that has one; none exactly when no own interface has one. |
| `Subscribers.FirstPass` | backend/services/subscriber_model.py:115-206 | One truthful decision per ONT and CPE, in step with node lists and port counters. |
| `Subscribers.SecondPass` | backend/services/subscriber_model.py:208-229 | Resolving access ports leaves no decision undetermined and keeps the accounts. |
| `Subscribers.StepResolve` | backend/services/subscriber_model.py:208-229 | Resolving one port places its least CPE there and keeps every account. |
| `Subscribers.SumNodes` | backend/services/subscriber_model.py:231-240 | The loop computes the total of the node counts of one domain. |
| `Subscribers.NodeIsSumOfPorts` | backend/services/subscriber_model.py:182-217 | A device's subscriber list is as long as the sum of its per-port occupancy. |
| `Subscribers.DomainTotal` | backend/services/subscriber_model.py:231-240 | The total of a domain is the number of subscribers placed in it. |
| `Subscribers.ResolveSubscribers` | backend/services/subscriber_model.py:33-297 | Every ONT and CPE gets exactly one determined decision in id order, with verdict, domain, port and reason as its rows make them; the least CPE per access port is counted; ports, nodes and totals account for the same subscribers; the OLT total is the number of counted ONTs, the AON total that of counted CPEs; nodes list their subscribers in order and are labelled exactly when they have any, and a provisioned leaf has its own. |
| `Subscribers.DomainsAreKinds` | backend/services/subscriber_model.py:231-240 | What is placed in the OLT domain are the counted ONTs, and in the AON domain the counted CPEs. |
| `Subscribers.PhysicalHopOnRows` | backend/services/count_semantics.py:56-87 | The physical tracer makes the same hops as the service tracer, except that it does not cross a CPE. |
| `Subscribers.PhysicallyAnchoredIsCounted` | backend/services/count_semantics.py:56-87 | A provisioned ONT that the physical tracer anchors is counted, at a PON port no more interface hops away. |
| `EventLog.Replay` | backend/services/simulation_event_engine.py:155-203 | Shows the last row recorded under each id, bindings and refusals in order, and the number of recorded kinds and bindings. |
| `EventLog.ReplayShowsRows` | backend/services/simulation_event_engine.py:155-203 | For any log, the five tables show the last row recorded under each id, and bindings and refused CPEs stand in the order of their events. |
| `EventLog.ReplayShowsCounts` | backend/services/simulation_event_engine.py:155-203 | For any log, the counters are the numbers of events that record the kind, the OLT, the switch or the PON port. |
| `EventLog.LatestMeans` | backend/services/simulation_event_engine.py:172-190 | A table shows a value if and only if some event records it and no later event records another under the same id. |
| `EventLog.LogDecisions` | backend/services/simulation_event_engine.py:110-150 | The replayed counters are the numbers of bindings per anchor and port, assignments are those of the decisions, and every binding names its cause. |
| `EventLog.RoundTrip` | backend/services/simulation_event_engine.py:155-217 | Counters tallied from bindings equal those of the subscriber model for every OLT, AON switch and PON port, and the effective total is its total. |
| `EventLog.BuildLog` | backend/services/simulation_event_engine.py:56-152 | The log is the device rows by id, the ports by device, name and id, the links by id, then for each decision its assignment directly followed by its binding, numbered from zero; replaying it gives back all payload columns, counts and assignments. |
| `Routes.NearestPath` | backend/services/metrics_service.py:135-151 | A walk to an anchor such that no walk to any anchor is shorter; none exactly when no anchor is reachable. |
| `Routes.NearestPathShape` | backend/services/metrics_service.py:135-151 | It visits no node twice and passes no anchor before its end. |
| `Flow.Aggregate` | backend/services/metrics_service.py:118-121 | The load of each sampled device is the sum of its samples. |
| `Flow.RouteLeaf` | backend/services/metrics_service.py:135-151 | A leaf is routed exactly when it is a node, not itself an anchor, and reaches one. |
| `Flow.BumpLinks` | backend/services/metrics_service.py:155-161 | Each link crossed by the path, and no other, gains the load once. |
| `Flow.PushUpstream` | backend/services/metrics_service.py:123-161 | Every device total is its own load plus the loads of the routes through it; every link total is the sum over leaves whose route crosses it. |
| `Flow.RowsGiveDistinctIds` | backend/services/metrics_service.py:155-161 | Distinct link keys give distinct edge labels, so a link total never mixes two edges. |
| `Flow.AnchorsCollectAll` | backend/services/metrics_service.py:128-154 | Flow conservation: the traffic added at all anchors equals the load of all routed leaves. |
| `Deltas.Diff` | backend/services/metrics_service.py:177-196 | The new table observes every reading and keeps the rest; one delta per significant reading and nothing else. |
| `Deltas.ObserveMeans` | backend/services/metrics_service.py:177-196 | A first reading is emitted if it carries traffic, a later one if its bucket changed or its utilization moved by a hundredth; an emitted reading is stored with its bucket, otherwise the entry stays, or starts at zero. |
| `Deltas.FoldedMeans` | backend/services/metrics_service.py:177-196 | A client knows an item by the last delta about it. |
| `Deltas.StoredIsClose` | backend/services/metrics_service.py:177-196 | The stored value is in the bucket of the reading and within epsilon (or both are infinite) if and only if the item was known, carries traffic, or reads above minus epsilon. |
| `Metrics.NegativeFirstReadingIsLost` | backend/services/metrics_service.py:182-189 | A sample of minus one megabit on a device of one megabit, seen for the first time, is stored as zero. |
| `Deltas.StepMirrors` | backend/services/metrics_service.py:177-196 | A tick keeps the client's folded view equal to the stored table. |
| `Deltas.RunMirrors` | backend/services/metrics_service.py:177-248 | Over any run of ticks, folding all deltas from zero gives the stored snapshot, and its buckets are right. |
| `Deltas.ClientIsClose` | backend/services/metrics_service.py:177-196 | After any run, what a client folded is close to every non-negative reading of the last tick. |
| `Deltas.BucketMonotone` | backend/constants/metrics.py:16-30 | More utilization never means a lower bucket, for finite values. |
| `Deltas.BucketCounts` | backend/constants/metrics.py:11-30 | The bucket is the number of thresholds 50, 70, 90 and 100 percent that are exceeded; infinity counts three. |
| `Deltas.InfiniteRanksBelow` | backend/constants/metrics.py:21-30 | An infinite utilization ranks below a finite one exactly when that exceeds 100 percent. |
| `Metrics.TickGraph` | backend/services/metrics_service.py:71-109 | The graph of a tick is the strict projection of records whose device names drop an "-if0" suffix. |
| `Metrics.TickInputs` | backend/services/metrics_service.py:82-103 | One record per link row in row order, its device names without the "-if0" suffix, and the kind of every device row. |
| `Metrics.LinkCapacity` | backend/services/metrics_service.py:226-231 | The smaller positive capacity of the two ends, or 1000 when neither has one. |
| `Metrics.EndsAreOwn` | backend/services/metrics_service.py:106-109 | With distinct keys a link id finds the interfaces of its own row. |
| `Metrics.CapacityMeans` | backend/services/metrics_service.py:206-231 | The capacity of a link is the smallest positive capacity at either port of its row, or 1000. |
| `Metrics.ReadingsMean` | backend/services/metrics_service.py:163-236 | Every device row is read at its total load over its capacity; every link with traffic at its load over the capacity of its row. |
| `Metrics.CloseBoundsLoad` | backend/services/metrics_service.py:163-175 | With a known capacity the stored load is wrong by less than epsilon times the capacity. |
| `Metrics.NoCapacityHidesLoad` | backend/services/metrics_service.py:190-196 | Without a capacity any change of a positive load goes unreported. |
| `Metrics.MetricsService.ProcessTick` | backend/services/metrics_service.py:111-254 | One tick: conserved flow, both tables updated, both deltas emitted, and a client that folds all deltas still knows the stored tables. |
| `Metrics.MetricsService.GetSnapshot` | backend/services/metrics_service.py:256-270 | The snapshot is the client's view with infinities clamped, for exactly the known devices and links. |
| `Metrics.TickIsAccurate` | backend/services/metrics_service.py:163-248 | After a tick of non-negative samples every device, and every link with traffic, is stored in the right bucket and within epsilon. |
| `Mac.FormatInjective` | backend/services/mac_allocator.py:78-86 | Two counters share an address if and only if they agree modulo 2^24. |
| `Mac.FormatReads` | backend/services/mac_allocator.py:78-86 | Read back, an address is the prefix 02:55:4e and the low 24 bits of its counter, most significant byte first. |
| `Mac.SomeFree` | backend/services/mac_allocator.py:105-109 | Below 2^24 used addresses some counter among the next 2^24 is free. |
| `Mac.MacAllocator.Search` | backend/services/mac_allocator.py:106-109 | The loop ends at the first counter with an unused address. |
| `Mac.MacAllocator.NextMac` | backend/services/mac_allocator.py:89-135 | Every combination of failing steps leads to the stated process state and committed row. |
| `Mac.ProcessNeverRepeats` | backend/services/mac_allocator.py:89-135 | Whatever steps fail, one process never returns the same address twice. |
| `Mac.RunNeverRepeats` | backend/services/mac_allocator.py:58-66 | Across restarts and below 2^24 no address is issued twice if first calls load the row (and commit it when new) and processes end after a committed call. |
| `Mac.RestartSafeIff` | backend/services/mac_allocator.py:58-66 | After a restart without further faults no address repeats if and only if the row has caught up with the counter. |
| `Mac.FirstCallRepeatsIff` | backend/services/mac_allocator.py:101-129 | A process that starts on a row which bounds everything issued repeats an address with its first call if and only if the load fails, whatever else fails. |
| `Mac.SecureIff` | backend/services/mac_allocator.py:101-112 | Without further faults a world repeats an issued address sooner or later if and only if some issued counter is above the one the next call starts from. |
| `Mac.RunSafeIff` | backend/services/mac_allocator.py:89-135 | Over whole runs with any faults and restarts below 2^24: no call repeats an address and no world could without further faults, if and only if no existing row is missed at a load and every process ends with the row caught up. |
| `Mac.FailedLoadRepeats` | backend/services/mac_allocator.py:101-129 | A first call whose load fails returns the very first address again. |
| `Mac.LostSeedIsNeverWritten` | backend/services/mac_allocator.py:37-66 | Once the seeding transaction is lost, no later call of the process writes the row. |
| `Mac.LostSeedRepeats` | backend/services/mac_allocator.py:37-66 | Loading first and committing last is not enough on a new database: a concrete run repeats an address. |

## Left out

- SQL sessions, ORM reloads, enum-or-string checks and blanket exception handlers: total functions over a snapshot take their place.
- The Go services and their clients; only the Python branch of status recompute is modelled.
- The inline execution when a timer cannot be started (backend/services/recompute_coalescer.py:208-211), and the disabled mode of the coalescer: starting a timer succeeds and the coalescer is enabled.
- The counter of executed runs, which like `metrics_scheduled` is incremented outside the lock.
- Evaluation of single device statuses and of passive inline chains from the reached set: finite case distinctions over results proved here.
- The physical viability check of a link: its verdict is a field of the link row.
- Hash values: the digest bytes of a link id are an arbitrary function, and distinct /31 pairs are a hypothesis where they matter. Peer MAC addresses of neighbour rows are not modelled.
- Floating point rounding: loads, losses and utilizations are real numbers with an explicit infinity. The difference of two infinities is treated as incomparable, as in the source.
- The choice that networkx makes among equally short or equally cheap paths: only length and cost are relied on, and that the same graph gives the same choice where whole outcomes are compared.
- Bumps of the version inside one graph fetch, except in `Caches.RetryAcceptsStaleGraph`: a read of inputs and the store access are one step in the run theorem.
- L3 evaluation for access devices is greedy and depends on row order; row order is an input, and completeness of the greedy choice is not claimed.
- Link metrics of links without traffic in the current tick are not revisited by the code; accuracy is stated for links with traffic.
- Event traces in the replay; the class attribute of graph edges; which of several equally near PON ports an ONT is assigned to.
- Capacity catalogues, PON capacity constants and the display fields of the subscriber model: inputs or constants without further properties.
- SignedSearch.Search: which negative weights make it fail is not characterised; failure needs one, and success excludes loops that gain.
- Incremental.IncrementalSound: the row-level cover condition is sufficient; the exact condition is stated for edges.
- Endpoints, websocket fan-out, layout state, job queue, IP pools, seeding, scripts and the frontend.
