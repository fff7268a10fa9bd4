# Meshnet: links between pods without a coordinator

Meshnet wires pods together. Every pod has a topology object in a shared store; every node runs
a daemon; a CNI plugin runs an ADD when a pod starts and a DEL when it goes. Nobody coordinates
them. This project models the four parts of meshnet whose correctness is a matter of
interleavings, restarts and stale state, and proves what each of them promises. `dafny verify
dfyconfig.toml` checks everything.

## The four parts

**1. Who makes a link** (`PodNames`, `TopologyStore`, `LinkProtocol`, `LinkInvariants`,
`LinkOutcomes`, `StoreHistory`, `LinkOrigins`, `LinkTheorems`, `LinkBoot`, `LinkWindow`,
`LinkRaces`, `LinkAborts`, `LinkLives`, `GrpcWait`).
Pods agree on who makes a link through skip lists in their objects and through the order of
their names. `LinkProtocol` is a transition system: one event is one read of an object, one
compare-and-set commit, or one local move of a pod through its ADD or DEL, and every list of
events is a run, with any number of restarts and failures. `LinkInvariants` has the invariant
behind the promises, and `LinkOrigins` says where each entry of a skip list comes from. `TopologyStore` has the daemon's loops and its retry loop against rivals
that may commit anything between a read and a write.

**2. The wires of a node** (`WireRecords`, `WireNode`, `WireInvariants`, `WireTheorems`,
`WirePairs`, `WireDelete`, `WireLeftovers`, `WireRecon`, `WireRestart`, `WireLives`, `WireRaces`,
`WireDaemon`, `Handshake`, `HandshakeRuns`, `HandshakeLives`, `HandshakeEnds`, `WirePlugin`).
`WireNode` has the state of one node: the wire table, the handles, the persisted records, the
node's interfaces and the interfaces in its pods, those that cannot be opened at the moment, the stop channels that were closed, and the
wires that were taken out of the table but are not removed yet. Each operation is a function on
it, with every early error exit; the two phases of a deletion are separate operations, so a run
interleaves them with anything. `WireDaemon` is the daemon as it is programmed, a class whose
wires are objects updated in place, and each of its methods does to the node exactly what the
operation's function says. `WireDelete` and `WireRecon` have the two operations that are loops
over many wires, `WireLives` runs with any number of restarts. `Handshake` has two nodes: making a
link is a sequence of steps on one and the other, with any run of each node between the steps,
and then frames cross; `HandshakeLives` adds any number of restarts of both daemons.

**3. Carrier propagation** (`Debounce`, `DebounceTheorems`, `CarrierMirror`, `CarrierWatch`).
The debouncer is specified over the whole history of its calls; the class keeps three maps and
refines that. `CarrierMirror` puts two ends with one-shot echo suppression together, and restarts
of their daemons.

**4. Names and addresses** (`IfaceNames`, `PeerIpCache`).
The generator of interface names with its restart seeding, and the cache of node addresses that
gates every dial.

## What the code does not promise

Some things one would expect are false of the code. For each there is a lemma with a run in which
it fails, and one with the exact condition.

- Two pods that start at the same time can both finish their ADD without a link between them, on
  one node at once (`LinkRaces.SharedNodeRace`) and over gRPC after 20 polls
  (`LinkRaces.PollRace`). `LinkWindow.UnmadeIffLeftInTheWindow`: that happens exactly if the lower
  pod leaves the link while the higher one's Skip for it is under way.
- A DEL that fails after it marked its pod dead is never completed: the recorded container is
  gone, so every repeated DEL counts as a duplicate. It can stop at any link
  (`LinkAborts.DelStopsAnywhere`, `LinkAborts.PairLosesLink`). `LinkAborts.AbortedDelLosesLink`:
  whenever the pod comes back while its peer stays up, it has a link again if and only if the DEL
  had announced it, or the peer lists it from before, or the pod has the greater name, or the pod
  finds an interface or a wire that is still there, as in `LinkAborts.PairRepairsLink`.
  `LinkOrigins.DownPeerIsListedIff` says exactly which links a peer lists.
- The comment on `SkipReverse` says that one pair is removed from the pod's own list; the code
  (`daemon/meshnet/handler.go:310`) keeps an entry only if both of its fields differ. A reachable
  list loses a second pair (`LinkRaces.SecondPairForgotten`). `TopologyStore.RemovesOnePairIff`
  has the condition.
- A leftover echo expectation swallows a real change: `CarrierMirror.MirroredIffNoLeftover` says
  exactly when a lasting change is mirrored. A restart produces such a leftover at the other end:
  the watch's own first edge does if the ends agreed before the restart
  (`CarrierMirror.RestartSettles`), and the re-assertion two seconds later does in any case.
  `CarrierMirror.FlapAfterRestartArrivesIff`: when the other end then changes and changes back, the
  change back arrives if and only if the ends disagreed before and nothing was re-asserted.
- Recovery prunes a dead record by its link id alone, so it takes a live record of the same link
  along (`WireRaces.MixedLinkRun`). `WireRecon.KeepsLiveRecordsIff` has the condition.
- Two live records that name one interface are both re-adopted, and the table then has one index
  for two wires (`WireRaces.SharedNameRun`). `WireLives.RecoveryKeepsInvIff`: nothing else spoils
  a recovery; and `WireLives.InvSurvivesRestarts`: it cannot happen if interfaces get names that
  no other wire has.
- A wire that is being deleted, or whose veth could not be removed, is re-adopted by a restart
  (`WireRaces.PendingRemovalComesBack`). `WireRestart.NothingDeletedComesBack`: of the wires that
  are not tracked any more, exactly those are whose removal is pending or failed, whose record is
  still there, and whose interface can be opened.
- An update of a tracked wire does not touch the peer's node address, although the comment above
  it (`daemon/grpcwire/gwire_rpc_handlers.go:70-71`) names pods that move between nodes. A peer
  that moved is missed (`HandshakeRuns.MovedPeerRun`, `Handshake.MovedPeerIsMissed`).
  `Handshake.ExchangeConnects` has the condition for a two-way link.
- Deleting a pod again after a veth could not be removed reports success without another try
  (`WireDelete.RetryForgetsInterface`, `WireLeftovers.LeftoverRun`).
  `WireLeftovers.SuccessLeavesIff`: a success leaves the interface of a former wire behind exactly
  if an earlier removal failed, the interface still exists, and no wire of the pod has it now.

## Assumptions

A pod's ADD and DEL do not overlap. Both ends of a link declare it under one uid, and a pod's
links have different uids. Both nodes are known to the address check. Interfaces and wires of a
link are made by meshnet only. A netns belongs to one pod of one namespace (`Owners`). An
interface that a local end takes over belongs to no other wire (`FreshFor`). Writes of wire
records commit. The creation of a veth pair is one step, and so is one RPC between daemons; the
exchange that makes a link is several, and other things happen in between. For one link the two
ends' exchanges are serialised: while one end waits to register, nobody else makes or deletes the
far end, and nobody else uses the name that was generated for the new interface
(`Handshake.Serialised`). `WireLives.InvSurvivesRestarts` assumes that an interface which is made
for a wire has a name that no other wire's record or entry has (`WireLives.NewName`), which is
what the generator of names is for. `WireRestart.OneEnd`, `WireRestart.RestartIsTransparent` and
`HandshakeLives.OnlyEnds` assume that at most one end of a link is on a node. `WirePairs.PairedFor`
assumes that a local end is registered on the veth of its own pod, which
`WirePairs.ExchangeIsPaired` shows of every exchange, and `WirePairs.Spares` that an interface in a
pod belongs to one link.

## Where the functions come from

The rows below name members whose contracts state something. The functions they are about follow
these lines:

- `TopologyStore.Apply`: the four status writes, `daemon/meshnet/handler.go:122-132`, `:163-176`,
  `:221-258`, `:286-323`.
- `LinkOrigins.Told`, `Inherited`: what the commits of `daemon/meshnet/handler.go:203-268` and
  `:115-135` leave in a list.
- `LinkProtocol.LookUpEffect`: the liveness check, `plugin/meshnet.go:326-331` and `:475-480`;
  `DecideEffect`: `plugin/meshnet.go:340-400` on one node, `plugin/grpcwires-plugin.go:55-58` and
  `:112-121` on two; `PollEffect` and `EndOfWait`: `plugin/grpcwires-plugin.go:70-110`;
  `Continue`: the order of the steps of ADD and DEL, `plugin/meshnet.go:281-291`, `:475-490`,
  `:554-622`; `FailDelEffect` and `BeginDel`: `plugin/meshnet.go:536-563` and `:618-621`.
- `WireNode.AddLocal`, `UpdateWire`, `EnsureNoStale`, `AddRemote`:
  `daemon/grpcwire/gwire_rpc_handlers.go:18-66`, `:80-87`, `:190-247`, `:72-172`; `WireDown`:
  `daemon/grpcwire/grpcwire.go:206-226`; `Extract`, `Remove`, `Purge`:
  `daemon/grpcwire/gwire_map.go:115-134`, `daemon/grpcwire/grpcwire.go:289-325`,
  `daemon/grpcwire/gwire_recon.go:562-636`.
- `WireRecon.ReconOne`, `Revive`, `Prune`: `daemon/grpcwire/gwire_recon.go:445-507`, `:375-440`.
- `Handshake.Begin`, `AskPeer`, `Exchange`: `plugin/grpcwires-plugin.go:147-150`, `:154-209`,
  `:147-250`; `Deliver`:
  `daemon/meshnet/handler.go:400-425` and `daemon/grpcwire/grpcwire.go:367` and `:422-441`.
- `CarrierMirror.TickEffect`, `Mirror`: `daemon/grpcwire/carrier.go:47-62`, `:119-138`; `Forgotten`:
  `daemon/grpcwire/carrier.go:39`; `Reassert`: `daemon/main.go:76-81`.

## Model

| member | source | states |
|---|---|---|
| PodNames.GreaterIff | plugin/grpcwires-plugin.go:56 | the priority goes to the name that is greater at the first difference, or that goes on where the other ends |
| PodNames.ExactlyOneIsGreater | plugin/grpcwires-plugin.go:55-56 | of two different pods exactly one has the priority |
| PodNames.GreaterIsTransitive | plugin/grpcwires-plugin.go:55-56 | and the order is transitive |
| TopologyStore.Find | daemon/meshnet/handler.go:359-374 | the search through a skip list answers whether the pair is in it |
| TopologyStore.ForgetLoop | daemon/meshnet/handler.go:292-314 | the loop keeps exactly the entries that differ from peer and link in both fields, in order |
| TopologyStore.RemovesOnePairIff | daemon/meshnet/handler.go:299-314 | one call removes just its pair from a list if and only if no other entry has the peer or the link |
| TopologyStore.Client.Update | daemon/meshnet/handler.go:134 | a write goes through exactly if the object still has the version that was read |
| TopologyStore.Client.Attempt | daemon/meshnet/handler.go:157-182 | one attempt succeeds exactly if no rival committed since the read; the object is what was committed, in order |
| TopologyStore.Client.WriteWithRetry | daemon/meshnet/handler.go:115-135 | whatever rivals commit, nothing of theirs is lost and this write is applied at most once, on top of theirs, by the first attempt that meets no rival, of five; when it is missing, and why |
| TopologyStore.Client.SkipReverse | daemon/meshnet/handler.go:199-341 | succeeds if and only if both pods exist, the peer can be told or is found dead, and the own list can be rewritten; then a live peer lists this pod, a dead one is left alone, this pod's list has neither the peer nor the link; no other object changed |
| TopologyStore.AnnouncedOnce | daemon/meshnet/handler.go:227-258 | a repeated announcement adds nothing, and the entries that are there stay where they are |
| GrpcWait.Await | plugin/grpcwires-plugin.go:55-121 | no wait if skipped or of higher priority; otherwise at most 20 polls, each earlier one uninformative, and giving up only after 20 |
| LinkInvariants.StepKeepsInv | plugin/meshnet.go:281-291 | every step of every pod keeps the skip-list invariant: honest reads, alive exactly when published, lists that drain in a DEL, every dead peer listed or about to list itself |
| LinkInvariants.ReachableInv | plugin/meshnet.go:293-490 | the invariant holds in every reachable state, with any restarts and failures |
| LinkOutcomes.ReachableOutcomeInv | plugin/meshnet.go:281-328 | in every reachable state two pods that are both alive have not both seen the other dead on a link |
| LinkOrigins.EntriesHaveOrigins | daemon/meshnet/handler.go:154-341 | in every reachable state a published pod's list is exactly: peers it found dead in this ADD, peers that announced their DEL since it was published, and what the list held then |
| LinkOrigins.DownPeerIsListedIff | plugin/meshnet.go:566-622 | a pod that is up lists a link to a pod that is down if and only if that pod's DEL got past it, or the peer was found dead, or an earlier DEL announced it, or the list held it before |
| LinkTheorems.DownPeerIsListed | plugin/meshnet.go:475-490 | in particular, every link that the last DEL of the peer got past, or whose peer never came up |
| LinkTheorems.CompleteDelEmptiesList | plugin/meshnet.go:566-622 | after a complete DEL the pod's list is empty and stays so until it is published again |
| LinkTheorems.LaterAddMakesTheLinks | plugin/meshnet.go:326-400 | an ADD that runs while its peer is up makes their link or finds it made, if its name is greater, or the peer lists it, or its last DEL got past the link |
| LinkTheorems.LaterAddLeavesTheLink | plugin/grpcwires-plugin.go:56-110 | and otherwise it never initiates the link, however often it polls, and has it afterwards if and only if it came upon an interface or a wire of it |
| LinkTheorems.LaterAddMakesIff | plugin/meshnet.go:344-400 | so a link that such an ADD is through with is there if and only if the pod might initiate it when the ADD began, or found something of it, which it keeps or repairs |
| LinkTheorems.CleanAddMakesIff | plugin/meshnet.go:369-399 | and where nothing is left of the link, an ADD that completes while the peer stays up has made it if and only if, when it began, the peer listed the pod or the pod had the priority |
| LinkTheorems.PermissionStays | plugin/meshnet.go:475-490 | while the peer is up nothing but the pod's own next DEL changes whether it may initiate the link, not even ADDs that fail |
| LinkTheorems.ConcludesBy | plugin/meshnet.go:343-400 | a link found whole is left alone, one of which a half is found on a shared node is made anew, and one of which nothing is found is made if and only if the pod may; the pod has built just what it made |
| LinkTheorems.FirstMadeByInitiating | plugin/meshnet.go:344-400 | a link counts as made only from the step in which one of its ends initiates it |
| LinkWindow.BothUpUnmadeLink | plugin/grpcwires-plugin.go:55-110 | when both ends are up, neither made the link if and only if the higher one saw its peer dead and the lower one gave up or deferred |
| LinkWindow.LeavesInTheWindow | plugin/meshnet.go:475-490 | when the lower end leaves the link, the higher one has seen it dead if and only if its Skip for the link is under way |
| LinkWindow.UnmadeIffLeftInTheWindow | plugin/grpcwires-plugin.go:95-101 | so, if both stay until they are up, neither makes the link if and only if the lower one left it in that window |
| LinkWindow.GivesUpOnlyUnskipped | plugin/grpcwires-plugin.go:83-108 | giving up takes the whole poll budget and a peer whose Skip is not committed |
| LinkBoot.AtMostOneInitiator | plugin/meshnet.go:384-398 | before any DEL, no interleaving lets both ends of a link initiate it |
| LinkRaces.SharedNodeRace | plugin/meshnet.go:369-399 | a run in which both pods of one node finish and neither makes the link |
| LinkRaces.PollRace | plugin/grpcwires-plugin.go:71-109 | a run over gRPC in which the lower pod uses up its polls while the higher one's Skip is under way, and neither makes the link |
| LinkRaces.SecondPairForgotten | daemon/meshnet/handler.go:299-314 | a run to a list from which one call removes a second pair |
| LinkRaces.KeepPolling | plugin/grpcwires-plugin.go:67-110 | polls that find neither wire nor entry end in giving up, and touch nothing |
| LinkLives.AliveIsLastAdd | plugin/meshnet.go:281-291 | in every run the object of a pod that is alive holds what its last ADD was given |
| LinkLives.DelEndsItsOwnLife | plugin/meshnet.go:536-540 | in every run an event starts to retire a pod if and only if it is a DEL for the container of its last ADD, while it is up or its ADD or DEL has failed; every other DEL changes nothing |
| LinkLives.FailedAddCanBeDeleted | plugin/meshnet.go:281-291 | an ADD that fails takes nothing back: a pod that was published stays alive and the DEL for its container retires it, one that was not is down |
| LinkLives.FailedDelCanBeRepeated | plugin/meshnet.go:543-563 | a DEL that fails before its pod was marked dead leaves the pod alive, and can be repeated |
| LinkAborts.DelStopsAnywhere | plugin/meshnet.go:566-621 | from any state a DEL can stop at any link k; it has told exactly the live peers of the links before k, and every repeated DEL is ignored |
| LinkAborts.AbortedDelLosesLink | plugin/meshnet.go:618-621 | whenever such a pod comes back while the peer stays up, whatever happened before, its ADD has the link if and only if the link was announced, or listed before, or the pod has the priority, or something of it is found |
| LinkAborts.PairLosesLink | plugin/meshnet.go:554-621 | a run in which the pod comes back on another node, waits, and gives up |
| LinkAborts.PairRepairsLink | plugin/meshnet.go:349-366 | a run in which it comes back on its peer's node, finds the peer's interface, and repairs the link |
| StoreHistory.CallIsWrittenOnce | daemon/meshnet/handler.go:157-182 | a step that commits appends the acting pod's one pending write and moves that pod on |
| StoreHistory.CommitsIff | daemon/meshnet/handler.go:115-135 | in every state the invariant allows, an update goes through exactly if its object is still what was read; otherwise it is read again and nothing else happens |
| StoreHistory.NothingIsLost | daemon/meshnet/handler.go:203-268 | in every run each object is its committed writes applied one by one in commit order, and its version counts them |
| WireRecords.UpsertLoop | daemon/grpcwire/gwire_recon.go:513-557 | the loop computes the upsert |
| WireRecords.WithoutLinkLoop | daemon/grpcwire/gwire_recon.go:402-417 | the loop drops exactly the records of a link |
| WireRecords.WithoutPodLoop | daemon/grpcwire/gwire_recon.go:592-613 | the loop drops exactly the records of a pod, counts them, and a count of 0 means nothing changed |
| WireRecords.UpsertContents | daemon/grpcwire/gwire_recon.go:533-548 | after an upsert the list holds the new record and every unrelated one and nothing else; no outdated one |
| WireRecords.UpsertDrops | daemon/grpcwire/gwire_recon.go:513-557 | exactly those records of the link go that are of the same namespace, node and netns, or of the same pod in another netns |
| WireRecords.UpsertKeepsOrder | daemon/grpcwire/gwire_recon.go:521-556 | unrelated records keep their order |
| WireRecords.UpsertExactlyOne | daemon/grpcwire/gwire_recon.go:539-555 | exactly one record has the new identity, and it is the new one |
| WireRecords.UpsertIdempotent | daemon/grpcwire/gwire_recon.go:513-557 | storing the same status again changes nothing |
| WireRecords.UpsertKeepsUnique | daemon/grpcwire/gwire_recon.go:513-557 | an upsert keeps records unique per link and pod and per link and netns |
| WireRecords.DeletesKeepUnique | daemon/grpcwire/gwire_recon.go:402-417 | so does every delete |
| WireNode.StatusRoundTrip | daemon/grpcwire/gwire_recon.go:84-103 | a wire re-created from a record has that record as its status |
| WireInvariants.OpKeepsTable | daemon/grpcwire/gwire_map.go:33-83 | every operation keeps a handle per wire under its own index, and distinct indices among tracked and extracted wires |
| WireInvariants.OpKeepsStops | daemon/grpcwire/grpcwire.go:190-226 | every operation keeps: a ready wire holds an open channel of its own |
| WireInvariants.OpKeepsRecords | daemon/grpcwire/gwire_map.go:45-59 | every operation keeps: each record is the status of a wire that is tracked, or whose removal is pending or failed |
| WireInvariants.RunKeepsInv | daemon/grpcwire/gwire_map.go:91-97 | all of these hold after every run |
| WireTheorems.IndexHasOneOwner | daemon/grpcwire/gwire_map.go:136-158 | in every run an interface index belongs to one tracked wire, and its handle writes to that interface |
| WireTheorems.NoDeletedWireIsRecorded | daemon/grpcwire/grpcwire.go:255-325 | in every run, once removals are finished or purged, each record is the status of the wire tracked under its netns and link |
| WireTheorems.OpTouchesOnly | daemon/grpcwire/gwire_map.go:33-134 | making, updating and deleting wires leave alone what is not theirs: interfaces, table, records, removals under way |
| WireTheorems.NoChannelClosedTwice | daemon/grpcwire/grpcwire.go:289-300 | no run closes a stop channel twice |
| WireTheorems.RemoteSucceedsIff | daemon/grpcwire/gwire_rpc_handlers.go:72-247 | a remote creation succeeds if and only if the wire is tracked, or nothing fails and nothing but a removable, unrecorded veth is in the way; when exactly the interface in the way is left alone |
| WireTheorems.CleanupIsFailSafe | daemon/grpcwire/gwire_rpc_handlers.go:190-247 | a remote creation takes away at most the veth it was asked to make, and only if no wire is tracked or recorded for it |
| WirePairs.RunKeepsPairs | daemon/grpcwire/gwire_rpc_handlers.go:72-172 | in every run a tracked wire whose interface is there has the veth of its pod at the other end, and nobody else has it |
| WirePairs.NobodyTakesAnEnd | daemon/grpcwire/gwire_rpc_handlers.go:190-247 | after any run, whatever else the node does then, such a wire stays tracked with both its ends, until it is taken out or its interface vanishes |
| WirePairs.CleanupSparesOthers | daemon/grpcwire/gwire_rpc_handlers.go:190-247 | after any run a remote creation, whatever fails, takes away at most the interface it was asked to make, and that only if no wire is tracked or recorded for it |
| WirePairs.ExchangeIsPaired | plugin/grpcwires-plugin.go:147-250 | what an exchange registers is still the other end of its pod's interface, whatever happened between its steps |
| WireTheorems.RetriesSucceed | daemon/grpcwire/gwire_rpc_handlers.go:124-171 | after any number of failed attempts, each with its own request and anything done to other wires in between, the first fault-free one ends with the wire tracked, ready, with that attempt's peer index, and recorded |
| WireDelete.DeleteOneMore | daemon/grpcwire/grpcwire.go:257-270 | wires deleted one after the other, in any order, give the same as deleting them together |
| WireDelete.DeletePodClears | daemon/grpcwire/grpcwire.go:255-282 | success means the pod has no wire, no record and none of the interfaces of the wires it still had |
| WireDelete.DeletePodSucceedsIff | daemon/grpcwire/grpcwire.go:289-325 | a deletion succeeds if and only if each of the pod's wires can lose its interface or has lost it; frames for them find no handle in either case |
| WireDelete.FailureKeepsRecord | daemon/grpcwire/grpcwire.go:305-312 | a wire whose interface cannot be removed keeps it, is remembered as failed, and keeps its record, unless another wire of its link went |
| WireLeftovers.DeletePodLeavesIff | daemon/grpcwire/grpcwire.go:303-312 | success leaves an interface if and only if it existed and was that of no wire the pod still had |
| WireLeftovers.FailedIsLeftIff | daemon/grpcwire/grpcwire.go:264-273 | in particular for wires of the pod whose removal failed before |
| WireLeftovers.ExtractedEnds | daemon/grpcwire/gwire_map.go:115-134 | in every run a wire that was taken out is being removed, or its removal failed, or its interface is gone for good |
| WireLeftovers.SuccessLeavesIff | daemon/grpcwire/grpcwire.go:255-282 | after any run, success leaves a former wire's interface if and only if a removal failed, it still exists, and no wire of the pod has it now |
| WireLeftovers.LeftoverRun | daemon/grpcwire/grpcwire.go:309-311 | a run after which a deletion succeeds and the interface is still there |
| WireDelete.DeletePodSparesWires | daemon/grpcwire/gwire_map.go:115-134 | other pods keep their wires, handles and interfaces, also on failure |
| WireDelete.DeletePodSparesRecords | daemon/grpcwire/gwire_recon.go:413-416 | other pods keep a record if and only if no removed wire was of its link |
| WireDelete.DeletePodIsRun | daemon/grpcwire/grpcwire.go:255-282 | a deletion is a run of extractions, removals and a purge, so it keeps what runs keep |
| WireDelete.RetryForgetsInterface | daemon/grpcwire/grpcwire.go:264-273 | a deletion repeated after a failure reports success and clears the records, but the stuck interface stays |
| WireRecon.Recovers | daemon/grpcwire/gwire_recon.go:151-210 | the rebuilt table is exactly the records whose interface exists and can be opened, each wire mapping back to its record; which records stay; nothing else changes |
| WireRecon.RecoversNothingElse | daemon/grpcwire/gwire_recon.go:481-507 | there are handles for the recovered wires only, all of them are up, no removal is under way, and the interfaces are as they were |
| WireRecon.KeepsLiveRecordsIff | daemon/grpcwire/gwire_recon.go:464-470 | exactly the live records stay if and only if no link has a live and a dead record in one object |
| WireRaces.MixedLinkRun | daemon/grpcwire/gwire_recon.go:402-417 | a run to a live and a dead record of one link |
| WireRecon.SecondPassChangesNothing | daemon/grpcwire/gwire_recon.go:445-451 | a second pass over what the first left changes nothing |
| WireRestart.RunKeepsUnique | daemon/grpcwire/gwire_recon.go:272-339 | in every run an object has at most one record per link and pod and per link and netns |
| WireRestart.ListsAreDistinct | daemon/grpcwire/gwire_recon.go:161-201 | the objects, listed in any order, hold each netns and link once |
| WireRestart.NothingDeletedComesBack | daemon/grpcwire/gwire_recon.go:480-507 | after any run a restart re-adopts only wires that were tracked, or whose removal was pending or had failed, with the status they had; an untracked one if and only if its record is still there and its interface opens |
| WireRaces.PendingRemovalComesBack | daemon/grpcwire/grpcwire.go:258-264 | a run in which a restart between the two phases of a deletion re-adopts the wire |
| WireRestart.OpKeepsExact | daemon/grpcwire/gwire_rpc_handlers.go:80-87 | with one end of a link per node, every operation keeps each tracked wire recorded |
| WireRestart.RestartIsTransparent | daemon/grpcwire/gwire_recon.go:151-210 | with one end of a link per node, a restart of an undisturbed node tracks the same wires and leaves the records alone |
| WireLives.RecoveryKeepsInvIff | daemon/grpcwire/gwire_recon.go:480-507 | recovery, also from a crash in the middle of an operation, re-establishes every invariant if and only if the live records name different interfaces |
| WireRaces.SharedNameRun | daemon/grpcwire/gwire_recon.go:481-488 | a run to two live records that name one interface |
| WireLives.RunKeepsNames | daemon/grpcwire/grpcwire.go:329-349 | if every interface that is made or taken over has a name no other wire has, no run brings two wires to one name |
| WireLives.InvSurvivesRestarts | daemon/grpcwire/gwire_recon.go:146-151 | then a node restarted any number of times, at any point, keeps one owner per index, an open channel per ready wire, a wire for every record, and unique records |
| WireDaemon.GRPCWire.constructor | daemon/grpcwire/grpcwire.go:141-164 | the new wire object has the value that the definition asks for |
| WireDaemon.Daemon.StoreWire | daemon/grpcwire/gwire_recon.go:272-339 | the object of the wire's namespace gets its status by an upsert, or is created |
| WireDaemon.Daemon.DeleteWireStatus | daemon/grpcwire/gwire_recon.go:375-440 | the object of the namespace loses the link's records, nothing else changes |
| WireDaemon.Daemon.IsWireRecorded | daemon/grpcwire/gwire_recon.go:231-263 | the search answers whether any object holds a record of this netns and link |
| WireDaemon.Daemon.AddInMem | daemon/grpcwire/gwire_map.go:33-43 | the wire is under its key and its handle under its index |
| WireDaemon.Daemon.AddInMemNDataStore | daemon/grpcwire/gwire_map.go:45-59 | the same, and the status is written through |
| WireDaemon.Daemon.AddWireInMemNDataStore | daemon/grpcwire/grpcwire.go:229-241 | the wire is made ready, put into the table and written through |
| WireDaemon.Daemon.GetWireByIfIndex | daemon/grpcwire/gwire_map.go:149-158 | the search finds a tracked wire with the index, or there is none |
| WireDaemon.Daemon.UpdateWireByUID | daemon/grpcwire/grpcwire.go:190-203 | the tracked wire gets channel, peer index and readiness, in place, and no other wire changes |
| WireDaemon.Daemon.WireDownByUID | daemon/grpcwire/grpcwire.go:206-226 | the wire is not ready, its channel closed if it was, and never twice |
| WireDaemon.Daemon.CreateGRPCWireLocal | daemon/grpcwire/gwire_rpc_handlers.go:18-66 | the whole node is as the local-end operation says |
| WireDaemon.Daemon.CreateUpdateGRPCWireRemoteTriggered | daemon/grpcwire/gwire_rpc_handlers.go:72-172 | the whole node is as the remote-end operation says, for every fault |
| WireDaemon.Daemon.EnsureNoStaleRemoteEnd | daemon/grpcwire/gwire_rpc_handlers.go:190-247 | the veth in the way is removed or the creation refused, as the operation says |
| WireDaemon.Daemon.ExtractOneWireByPod | daemon/grpcwire/gwire_map.go:115-134 | some wire of the pod leaves table and handles, or the pod has none |
| WireDaemon.Daemon.RemoveWireAcrosAll | daemon/grpcwire/grpcwire.go:289-325 | channel closed once, veth and record removed; the record stays if the veth cannot be removed |
| WireDaemon.Daemon.PurgePod | daemon/grpcwire/gwire_recon.go:562-636 | the object of the namespace loses the pod's records |
| WireDaemon.Daemon.DeletePodWires | daemon/grpcwire/grpcwire.go:255-282 | the loop, in whatever order it meets the wires, does what the deletion of the pod says |
| WireDaemon.Daemon.ReconLocalGRPCWire | daemon/grpcwire/gwire_recon.go:481-507 | the wire is re-created on its interface if that exists and can be opened, in memory only |
| WireDaemon.Daemon.ReCreateGWire | daemon/grpcwire/gwire_recon.go:445-477 | one record is skipped, revived or pruned |
| WireDaemon.Daemon.ReconGWires | daemon/grpcwire/gwire_recon.go:151-210 | the two loops go through all records once, in the order listed |
| Handshake.RunKeepsReserved | plugin/grpcwires-plugin.go:147-164 | no run that does not use its name gives the new interface to another wire or another index |
| Handshake.ExchangeKeepsInv | plugin/grpcwires-plugin.go:147-250 | the exchange, failing at any step and with anything in between, keeps the invariants of both nodes |
| Handshake.ExchangeConnects | plugin/grpcwires-plugin.go:161-250 | after a successful exchange, with anything in between, both ends are tracked and have each other's index; the other end has this node's address if and only if it was new when asked or had it already |
| Handshake.ExchangeSucceedsIff | plugin/grpcwires-plugin.go:147-250 | without trouble it succeeds if and only if this end's interfaces are free and can be opened and the other end is tracked, free, or blocked only by the veth of an unfinished attempt |
| Handshake.RouteStays | daemon/grpcwire/gwire_map.go:115-134 | no run of operations on other wires changes a wire's interface, peer index or peer address |
| Handshake.DeliveredToTheOtherEnd | daemon/meshnet/handler.go:400-425 | a frame is written to the handle of the other end, whose interface is no other wire's |
| Handshake.LinkCarriesFrames | plugin/grpcwires-plugin.go:161-250 | frames of either end reach the other end and no other wire, whatever happens between the steps and afterwards, until one of the two is taken out or made anew |
| Handshake.RemadeOnSameNode | daemon/grpcwire/gwire_rpc_handlers.go:68-87 | a peer that comes back on its node, after any run, is connected again, and frames are carried both ways |
| Handshake.MovedPeerIsMissed | daemon/grpcwire/grpcwire.go:190-203 | frames for a peer that comes back on another node do not reach that node |
| HandshakeEnds.ExchangeMakesItsEnds | plugin/grpcwires-plugin.go:184-250 | after a successful exchange, with anything in between, this end carries this pod's names and address, a far end that was made carries the other pod's, and both were recorded so with each other's index and node; a far end that was tracked stays what it was |
| HandshakeEnds.ExchangeRecordsItsEnds | daemon/grpcwire/gwire_recon.go:272-339 | and if nothing else of the link is on the two nodes, both records are there in the end |
| HandshakeEnds.AskPeerSucceedsIff | plugin/grpcwires-plugin.go:154-209 | the call is answered if and only if it gets through, this end's veth is there, and the peer has its end or can make it |
| HandshakeLives.LinkOutlivesRestarts | daemon/grpcwire/gwire_recon.go:151-210 | frames cross in both directions after any number of restarts of both daemons at any points, until an end is taken out or made anew, or a daemon starts while its interface is missing |
| HandshakeLives.ExchangeLasts | plugin/grpcwires-plugin.go:161-250 | a successful exchange, with anything in between, makes such a link: both ends recorded, each the only one of its link on its node |
| HandshakeLives.RestartKeepsEnd | daemon/grpcwire/gwire_recon.go:480-507 | recovery re-creates such an end as the wire it was, whatever other records are pruned |
| HandshakeRuns.MovedPeerRun | daemon/grpcwire/grpcwire.go:197-201 | two successful exchanges after which the far end sends to the node the pod left |
| HandshakeRuns.PeerClearsLeftover | daemon/grpcwire/gwire_rpc_handlers.go:72-247 | a trigger of the peer after a failed exchange: a tracked end is only updated; otherwise the veth left behind goes if and only if the end is not recorded, and the end is made if and only if the new name is free besides |
| HandshakeRuns.StaleFrameHitsNobodyElse | daemon/grpcwire/gwire_map.go:136-144 | a frame sent on an index that was once a wire's never reaches the interface of another wire, if no other wire takes that interface over |
| WirePlugin.MakeOwnVeth | plugin/grpcwires-plugin.go:143-150 | the first step on this node, nothing on the peer |
| WirePlugin.CallPeer | plugin/grpcwires-plugin.go:154-209 | the call to the peer with its early exits, nothing on this node |
| WirePlugin.RegisterLocal | plugin/grpcwires-plugin.go:213-250 | the registration of this end, which may fail, nothing on the peer |
| WirePlugin.CreatGRPCChan | plugin/grpcwires-plugin.go:123-257 | the steps in their order are the exchange, with every early exit |
| Debounce.Debouncer.Observe | internal/carrierprop/carrierprop.go:104-113 | the maps follow the history of calls; a repeated sample does not move the deadline |
| Debounce.Debouncer.Due | internal/carrierprop/carrierprop.go:115-130 | the edges are exactly those the history calls for, each key once, whatever order the map is walked in |
| DebounceTheorems.LastChangeMeans | internal/carrierprop/carrierprop.go:108-113 | the last change is the sample after which the key never differed |
| DebounceTheorems.EdgeMeansStable | internal/carrierprop/carrierprop.go:115-130 | an edge means that the key took this value at least one debounce ago and kept it |
| DebounceTheorems.EdgesAlternate | internal/carrierprop/carrierprop.go:123-126 | successive edges of a key differ |
| DebounceTheorems.DueCatchesUp | internal/carrierprop/carrierprop.go:115-130 | after a Due every stable key has its value reported last, and no other key has a new edge |
| DebounceTheorems.NoMoreEdgesThanChanges | internal/carrierprop/carrierprop.go:86-93 | flaps collapse: never more edges than changes, fewer while a change is unreported |
| CarrierMirror.ObserveIsPerKey | internal/carrierprop/carrierprop.go:104-113 | a sample concerns its own key only |
| CarrierMirror.DueIsPerKey | internal/carrierprop/carrierprop.go:115-130 | a Due treats every key by itself |
| CarrierMirror.SwallowedNeverExceedSuppressed | internal/carrierprop/carrierprop.go:64-78 | in every run, restarts included, the edges swallowed and the echoes expected are covered by suppressions |
| CarrierMirror.SentIsMirrored | daemon/grpcwire/carrier.go:96-138 | in every run, restarts included, what one end sends is what the other mirrors |
| CarrierMirror.ReportedOnce | daemon/grpcwire/carrier.go:57-62 | in every run each edge that the watch reports is sent or swallowed, and none is both |
| CarrierMirror.ChangeIsMirrored | daemon/grpcwire/carrier.go:43-64 | a lasting change gives exactly one notification and no reply, and both ends settle on it |
| CarrierMirror.LeftoverEchoLosesChange | internal/carrierprop/carrierprop.go:70-78 | with a leftover expectation of the new value the change never reaches the peer |
| CarrierMirror.MirroredIffNoLeftover | daemon/grpcwire/carrier.go:57-62 | a lasting change is mirrored if and only if there is no such leftover |
| CarrierMirror.RestartSettles | daemon/grpcwire/carrier.go:32-64 | after a restart, whatever the daemon was in, the ends agree after one notification, which leaves an expectation behind if and only if they agreed before |
| CarrierMirror.ReassertionSettles | daemon/grpcwire/carrier.go:140-155 | a re-assertion makes two settled ends that disagree agree on the value of the end that asserts, with no reply |
| CarrierMirror.FlapAfterRestartArrivesIff | daemon/main.go:76-81 | if the other end then changes and changes back, the change back arrives if and only if the ends disagreed before the restart and nothing was re-asserted |
| CarrierWatch.SamplesArePerKey | daemon/grpcwire/carrier.go:48-56 | the sampling of a round acts on each key as on its own port |
| CarrierWatch.Watch.SuppressEcho | internal/carrierprop/carrierprop.go:64-68 | one expectation per key, the latest; each key's port expects what mirroring at that end makes it expect |
| CarrierWatch.Watch.ConsumeEcho | internal/carrierprop/carrierprop.go:70-78 | a matching expectation is used up, any other is left |
| CarrierWatch.Watch.Round | daemon/grpcwire/carrier.go:47-62 | a round over all wires is, for each key, the round of its port: swallowed if expected, sent otherwise |
| IfaceNames.NameFits | daemon/grpcwire/grpcwire.go:342-346 | a name has at most 15 characters |
| IfaceNames.NameReads | daemon/grpcwire/grpcwire.go:344-346 | it begins with as much of the pod's name as fits into five characters, goes on with the interface's, and ends with a hyphen and four digits |
| IfaceNames.SuffixRecovers | daemon/grpcwire/grpcwire.go:47-49 | the parser reads the index of a generated name back |
| IfaceNames.SuffixIff | daemon/grpcwire/grpcwire.go:47-49 | it accepts exactly the names that end with a hyphen and four digits |
| IfaceNames.ConsecutiveNamesDiffer | daemon/grpcwire/grpcwire.go:344-346 | any 10000 consecutive names differ pairwise |
| IfaceNames.NamesRepeatAfterWindow | daemon/grpcwire/grpcwire.go:344 | and no more than that: the next one repeats |
| IfaceNames.MaxSuffixIsOne | daemon/grpcwire/grpcwire.go:69-80 | the value seeded from is the suffix of a name on the host, or 0 |
| IfaceNames.SeededNamesAreNew | daemon/grpcwire/grpcwire.go:58-90 | after seeding to M the names up to 9999 are not on the host |
| IfaceNames.IndexGen.NextIndex | daemon/grpcwire/grpcwire.go:51-56 | the counter goes up by one |
| IfaceNames.IndexGen.SeedIndexFromHost | daemon/grpcwire/grpcwire.go:62-90 | the counter moves to the highest suffix on the host, never back: no suffix is above it, and it is one of them or what it was |
| IfaceNames.IndexGen.GenNodeIfaceName | daemon/grpcwire/grpcwire.go:329-349 | the name fits, carries the counter, and differs from the names of the 9999 indices before |
| PeerIpCache.Cache.Refresh | daemon/grpcwire/peerip.go:113-134 | the cache is what the cluster lists now, for one TTL; a failed listing changes nothing |
| PeerIpCache.Cache.Validate | daemon/grpcwire/peerip.go:61-84 | a set not older than a TTL answers by itself, otherwise a new listing does, and without one nothing is accepted; so an accepted address was listed at most one TTL ago, and one listed throughout the last TTL is accepted |
| PeerIpCache.Cache.WaitForValidPeer | daemon/grpcwire/peerip.go:97-111 | the wait ends with the first poll that accepts the peer; it accepts only listed addresses and ends accepted if the node is known for a TTL before the wire is torn down |

## Left out

- Foreign calls: netlink, network namespaces, ethtool, pcap and koko. An interface is a name with an index, a veth pair appears in one step or not at all.
- gRPC transport, protobuf messages, the conversion of records to and from unstructured objects, malformed list items, and objects without an item list.
- Failed writes of wire records, which the daemon logs and ignores (`daemon/grpcwire/gwire_recon.go:119-122`); the model's writes commit.
- The receive threads as such: a frame is captured and sent in one step, and a wire's threads share its fields. How many threads a wire has after repeated triggers is not modelled.
- The VXLAN path and macvlan links.
- CNI configuration and installation, readiness taints, packet decoding for log texts.
- The wrap-around of the 64-bit counter behind interface names, and names with characters of more than one byte.
- The address check of `Get` is not part of the link protocol: both nodes are taken to be known. `PeerIpCache` models the check itself.
- Carrier samples that cannot be read are not part of a round; the RPC that carries an edge to the peer does not fail in `CarrierMirror`.
- The failure of an ADD in the middle of a link is an event of the protocol; what it leaves of the wires is modelled for the remote end only.
- WireDaemon.Daemon.DeletePodWires: does not interleave with other calls, because a method is one piece; interleavings of its two phases with everything else are the runs of `WireNode`.
- WireDaemon.Daemon.UpdateWireByUID: the stop channel is drawn when it is stored, not before the call, so a failed remote creation leaves no unused channel behind.
- WirePlugin.CreatGRPCChan: nothing happens between its steps, because a method is one piece; interleavings are those of `Handshake.Exchange`, whose steps the three methods before it are.
- WireTheorems.NoDeletedWireIsRecorded: is about states without pending or failed removals, because a wire whose veth cannot be removed keeps its record until the pod's deletion succeeds.
- TopologyStore.Client.WriteWithRetry: the back-off between attempts is not modelled.
- LinkProtocol.Step: an update may be retried any number of times, where the daemon stops after five conflicts; running out of attempts is the failure of the ADD or DEL.
