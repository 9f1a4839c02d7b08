# Podshare, verified

A Dafny model of podshare: the replicated last-write-wins store with its watchers and snapshotter, the in-process broker, the P2P frame codec and the call/reply layer. Every theorem below holds for all inputs and all runs of its model.

`dafny verify dfyconfig.toml` checks the project.

| file | what it holds |
|---|---|
| `Order.dfy` | byte strings under Go's order, and the total order (Timestamp, Origin, Seq) |
| `Replica.dfy` | one replica as a value: the LWW rule, messages, snapshots, the merge algebra |
| `History.dfy` | histories of applied writes, adopted snapshot entries and collection passes; watch replay |
| `Fanout.dfy` | where the store's lock ends and dispatch begins: when a watcher's replay is right |
| `Overtaking.dfy` | when a watcher sees each key's changes in the order they were installed |
| `Collection.dfy` | tombstone collection is invisible |
| `LocalWrites.dfy` | a node's own writes are never lost; batches refine single writes |
| `Merging.dfy` | what a merger does and when it converges |
| `Cluster.dfy` | many replicas that write, refresh, persist and collect over a reordering, duplicating, lossy network |
| `Convergence.dfy` | what replicas show: convergence, and exactly when collection spoils it |
| `Store.dfy` | the `Store` class, its counters and loops, proved against the functions above |
| `Watchers.dfy` | watcher registration, dispatch and close, as a machine and as a class |
| `Persistence.dfy` | the dirty token and the snapshot loop |
| `Memory.dfy` | the in-process broker, as a machine and as a class |
| `Joining.dfy` | stores on the broker, end to end: the late joiner |
| `Frames.dfy` | the frame codec, as functions and as code over buffers and streams |
| `CallReply.dfy`, `Endpoint.dfy` | call/reply over many endpoints, and one endpoint's code |

How things are modelled:

- Time is an integer read by the caller, so no clock is assumed monotonic or synchronised unless a lemma says so. Seq is unbounded.
- Node ids are unique per store and call ids are unique per call, as `WithNodeID` and the random ids intend.
- The value codec is any partial marshal/unmarshal pair; where a message or snapshot must survive it, the round-trip law `Lawful` is required. JSON envelopes are taken as already parsed, with "does not parse" as a case.
- A network is the set of everything ever sent: any message may be delivered at any time, any number of times, or never.
- Transport results (did this publish, this snapshot, this read succeed) are parameters or nondeterministic steps.
- Runs are sequences of steps of a machine; a step that is not enabled changes nothing. Fields described as history record what happened and influence nothing.
- Go's map iteration order is an arbitrary choice in every loop over a map.

Where the documentation and the code disagree, the code is modelled:

- `options.go` says a join-semilattice merger makes replicas converge. It does not: a Set that loses LWW is dropped before it is merged. `ReorderedSetsAgree` says exactly when two reordered Sets agree, and `InOrderMergersConverge` gives a sufficient delivery order.
- The comment on `mergeSnapshot` says each key's history stays monotonic for watchers. Events of a batch or refresh are sent after the lock is released and can be overtaken; `OvertakenWatcherWrong` is such a run and `MonotonicIffNotOvertaken` says exactly when the comment holds. `ReplayRight` and `DrainedReplayRight` say exactly when a watcher's replay is right, `CalmReplay` gives a discipline under which it always is, and `AbortedWatcherWrong` shows the other way to lose it.
- `doc.go` promises that peers converge. A Delete that is collected before every replica knows it can be forgotten (`CollectedDeleteSurvives`); `CleanIffCareful` names the steps that do it, exactly, and `TimelyConvergence` gives a discipline under which replicas do converge.
- `SetMany` promises all-or-none to readers. A value that does not marshal in mid-loop leaves the earlier ones applied (`HalfABatch`); `AllOrNone` says exactly when readers see one or the other in whatever order the items are visited.
- `TrySet` can report true although the write lost (`TrySetLoses`); `TriedSetChanges` says exactly when the map changes.
- A handler error with empty text reads as success at the caller, and only that one (`FailureReadsAsSuccess`).
- A store's snapshot can be replaced by that of a peer (`PeerOverwrites`); a peer's snapshot covers a write exactly when the peer has heard of one at least as new (`SnapshotHoldsHeard`).

## Model

| member | source | states |
|---|---|---|
| Order.StrOrder | podshare.go:514-520 | the origin comparison is Go's string order: below means a proper prefix, or the lower byte at the first difference |
| Order.StampTrichotomy | podshare.go:58-65 | any two stamps are equal or ordered one way only, so LWW always has one winner |
| Order.StampTransitive | podshare.go:58-65 | the stamp order is transitive |
| Replica.LwwAccept | podshare.go:506-523 | the nested comparison accepts a write exactly when the key is absent or its entry is strictly lower in (Timestamp, Origin, Seq) |
| Replica.DecodeEncode | podshare.go:317-325 | what handleRaw decodes from a published message is the write that was applied at its author |
| Replica.SpeaksVersionOne | podshare.go:770-773 | messages go out as version 1, a later version is never understood, and a Delete of version 1 always is |
| Replica.SnapshotRoundTrip | podshare.go:1101-1129 | loading a persisted snapshot gives exactly the map minus expired tombstones, stamps included, and merging it back changes nothing; rests on tombstones holding the zero value |
| Replica.MergeDominates | podshare.go:1025-1057 | a refresh never lowers a key's stamp and every resulting entry is one of the two it came from |
| Replica.MergeIsJoin | podshare.go:1025-1057 | the merge is the least upper bound: a map is above it exactly when it is above both |
| Replica.MergeCommutative | podshare.go:1025-1057 | merging commutes if and only if the two maps agree on entries with equal stamps |
| Replica.MergeAssociative | podshare.go:1025-1057 | merging is associative for all maps |
| Replica.MergeIdempotent | podshare.go:1025-1057 | merging a map with itself, or the same snapshot twice, changes nothing more |
| Replica.ApplyIsMerge | podshare.go:811-843 | without a merger, handling a message is merging a one-entry snapshot |
| Replica.MergeApplyInterchange | podshare.go:1014-1063 | a refresh and a message delivery can be exchanged |
| History.AdoptAnyOrder | podshare.go:1026-1056 | adopting snapshot entries one by one in any iteration order gives the per-key merge |
| History.ReplayReproduces | podshare.go:800-862 | replaying the events of a history in the order of the lock over the live view at its start gives the live view at its end, for every history of writes, refreshes and collection passes |
| History.EventsTell | podshare.go:850-860 | every event is that of an operation that won at that point, and names its key, author, time, kind and the value stored |
| History.InstallsIncrease | podshare.go:800-862 | along the installs of a key stamps strictly increase, and the map never falls below them |
| Fanout.CalmReplay | podshare.go:376-395 | in every run of single writes, batches and refreshes with dispatch after unlock: if no step installs a key another batch has still to dispatch, a watcher that came in at any point, also in the middle of a batch's dispatches, and replays what came since and then what is queued has the live view |
| Fanout.CalmKeysMonotonic | podshare.go:1008-1013 | in such a run without collection passes a watcher sees each key's events in the order of the lock, with rising timestamps |
| Fanout.NothingMissing | podshare.go:391-395 | in every run without aborted batches each event is dispatched or queued exactly as often as it was installed |
| Fanout.ReplayRight | podshare.go:361-395 | in every run, aborted batches included, and at every point: a watcher's replay is right if and only if on each key the dispatched events leave what the installed ones leave |
| Fanout.DrainedReplayRight | podshare.go:1058-1061 | once all queues are empty, in any run without aborted batches, a watcher's replay is right if and only if on each key the event dispatched last has the effect of the one installed last |
| Fanout.OvertakenWatcherWrong | podshare.go:376-395 | a run in which a write overtakes a batch's event: the watcher ends with the older value and falling timestamps |
| Fanout.AbortedWatcherWrong | podshare.go:1034-1041 | a run in which a batch cut short by a codec error leaves a watcher wrong with nothing queued |
| Overtaking.MonotonicIffNotOvertaken | podshare.go:1011-1013 | in every run, once all queues are empty, watchers have seen a key's events in the order of their installation if and only if none was dispatched while an earlier one on the key was queued |
| Overtaking.RisingNumbersRisingTime | podshare.go:1011-1013 | without collection passes that order is the order of the events' timestamps |
| Collection.GcInvisible | podshare.go:964-985 | a history whose later writes are not older than each pass's cutoff gives the same Get, Keys, Snapshot and Version results and the same events with its collection passes as without them |
| Collection.CollectedTombstoneShows | podshare.go:964-985 | a live write after a pass is seen as without the pass if and only if it is newer than the collected tombstone |
| Collection.CollectedSnapshotShows | podshare.go:1101-1112 | a refresh from a snapshot without its expired tombstones reads as one with them if and only if no live entry is older than a dropped tombstone |
| Collection.StaleWriteResurrects | podshare.go:585-588 | a run in which an older write resurrects a collected key |
| LocalWrites.OwnWritesKept | podshare.go:306-340 | under a nondecreasing clock every sequential local write on own or older keys is accepted, even with all timestamps equal, and each key ends with its last write |
| LocalWrites.OwnWritesRead | podshare.go:261-273 | without a merger a reader then gets the last Set's value, or nothing after a Delete |
| LocalWrites.BatchRefinesSingles | podshare.go:356-389 | single writes at one clock reading, in any order and with any merger, show the batch's live view, which mentions neither order nor counters; repeated Deletes included |
| Merging.LiveValueIsJoin | podshare.go:832-843 | in every history of writes, refreshes and collection passes with a semilattice merger, the live value is the least upper bound of the Sets accepted since the last accepted Delete or the last adopted snapshot entry, and a key is live exactly when there is one |
| Merging.RefreshOverwrites | podshare.go:1045-1048 | a refresh over a live value leaves the join of the two if and only if the newer one already contains the older one |
| Merging.InOrderMergersConverge | options.go:90-104 | replicas that receive a key's writes in stamp order, with duplicates, collection passes and any traffic on other keys, hold the join of the Sets above the greatest Delete |
| Merging.ReorderedSetsAgree | podshare.go:815-835 | two Sets delivered in opposite orders leave the same value if and only if the newer one already contains the older one |
| Cluster.StepKeepsInv | podshare.go:749-862 | every drawn or applied local write, publish, delivery, collection pass, persist, refresh and start keeps: each known write is covered by the map or by a collected Delete, each entry stems from a write accepted by its author, and stamps are unique |
| Cluster.StampUniqueness | podshare.go:317-325 | in every run, concurrent writes of one node included, no two distinct writes share origin and Seq, and an author's counter is never behind its writes |
| Cluster.OwnEntriesCounted | podshare.go:317-325 | in every run the entries a node authored, at any replica, are within its counter, which is what batches rely on |
| Cluster.ReplicasCoherent | podshare.go:58-65 | in every run without a merger two replicas never hold different entries under one stamp |
| Convergence.ShowsNewestIffClean | podshare.go:800-810 | in every run a replica shows the newest of the accepted writes it knows if and only if it holds no live entry older than a Delete that was collected |
| Convergence.Convergence | podshare.go:764-862 | in every run, collection included: of two replicas offered the same accepted writes, if nothing has come back to life in one, they show the same versions, and without a merger the same values, exactly when nothing has come back to life in the other; losing writes are never sent and own echoes are ignored |
| Convergence.FullConvergence | podshare.go:764-862 | where neither has collected anything they hold the same keys, stamps and deletion marks under any merger, and equal maps without one |
| Convergence.LoserStaysHome | podshare.go:327-329 | a local write changes its author's map exactly when it wins there, and only then can it be published |
| Convergence.StepCleanIffCareful | podshare.go:506-523 | a step brings a deleted key back exactly when a live write or entry wins that is older than a Delete collected here, or a live entry outlasts one collected on the snapshot's side |
| Convergence.TickCollects | podshare.go:968-985 | a tick at a node collects exactly the expired tombstones, shows its readers nothing and touches no other node |
| Convergence.CleanIffCareful | podshare.go:964-985 | a run never brings a deleted key back if and only if each of its steps is careful in that sense |
| Convergence.TimelyConvergence | podshare.go:1098-1112 | replicas that know the same accepted writes show the same in every run in which no replica accepts a write older than its cutoffs and each refreshing replica knows the Deletes collected from the snapshot |
| Convergence.QuiescentConvergence | doc.go:3-11 | replicas of such a run that have been offered every accepted write agree, whatever else each has seen |
| Convergence.SnapshotHoldsHeard | podshare.go:1101-1137 | in every run a persisted snapshot covers a write, by an entry or a collected Delete, if and only if its author had heard of an accepted write on the key that is at least as new |
| Convergence.RefreshRepairs | podshare.go:221-252 | after a refresh from a peer's fresh snapshot a replica knows all that either knew, whichever messages were lost; its map is the merge with what the peer kept, and reads as the merge with all the peer had exactly when no dropped tombstone was newer than one of its live entries |
| Convergence.CollectedDeleteSurvives | podshare.go:1107-1112 | a run in which two replicas know every accepted write and one still shows a key the other deleted |
| Store.Store.ApplyMessage | podshare.go:811-862 | a losing write is counted and changes nothing else; a winning one is reconciled with one event, which replays it, and the counters agree with the map |
| Store.PostsCarry | podshare.go:389-404 | a batch posts one message per install, in order, and each decodes to the caller's write behind that install |
| Store.WroteReplays | podshare.go:306-340 | a single local write is reconciled like any other, and what it dispatched replays it |
| Store.BatchReplays | podshare.go:391-395 | what a batch that was not cut short dispatched replays it |
| Store.Store.HandleRaw | podshare.go:764-798 | unparsable, too new, own and undecodable messages change nothing at all; every other is offered like a local write, without being published |
| Store.Store.Set | podshare.go:306-340 | each error path and, otherwise, one reconciled write with its event, published and marked dirty exactly when it won and was taken by the transport |
| Store.Store.Delete | podshare.go:589-618 | the same for a tombstone with the zero value |
| Store.Store.TrySet | podshare.go:566-583 | with any writes, or a Close, landing between check and Set: true exactly when the version matched at the check, and then all that a Set does to the store as it is by then, its message, event and dirty mark included |
| Store.TriedSetChanges | podshare.go:566-583 | after a matching check the map changes exactly when the store is still open, the value marshals and the write beats what the map holds by then; without a merger the value is then readable |
| Store.TrySetLoses | podshare.go:566-583 | a store on which TrySet returns true without error and the map is unchanged |
| Store.Store.SetMany | podshare.go:347-408 | for whatever order range yields the items: the error on every path, the map, one event per install, and the messages of the single calls up to the first failure; a value that does not marshal leaves the items visited before it applied and nothing else |
| Store.SetManyView | podshare.go:342-346 | the live view after SetMany is the batch's, for every iteration order |
| Store.AllOrNone | podshare.go:342-346 | in every iteration order readers see the view before the batch or the whole batch's, if and only if all values marshal or no item that marshals changes the view besides another item that does |
| Store.HalfABatch | podshare.go:361-366 | a batch of two after which readers see neither the old view nor the batch's |
| Store.Store.DeleteMany | podshare.go:412-463 | the same for a list of keys: closed, broadcast failure exactly when it falls among the winning Deletes, or success; events, messages and dirty mark |
| Store.DeleteManyView | podshare.go:410-411 | the live view after DeleteMany is the batch's, repeated keys included |
| Store.Store.Seed | podshare.go:478-501 | refuses a closed or non-empty store; otherwise readers see exactly the initial values and nothing is dispatched |
| Store.SeedIsSets | podshare.go:469-477 | a seeded map is what single Sets would have made of the empty map, so peers converge on it through LWW |
| Store.Store.LoadSnapshot | podshare.go:1065-1096 | each error path, and otherwise the decoded entries with counters in step |
| Store.DecodeAll | podshare.go:1075-1094 | in any iteration order: fails exactly when some entry does not decode, otherwise yields all of them and the number of live ones |
| Store.Store.MergeSnapshot | podshare.go:1014-1063 | the error on every path; for a decodable snapshot the per-key merge, whatever the iteration order, with one event per adopted entry; a winning entry that does not decode leaves the merge with those adopted before it and no event |
| Store.Store.GcTombstones | podshare.go:968-985 | exactly the expired tombstones go, no reader notices, the counters settle, and the store is dirty exactly if something went |
| Store.Store.PersistSnapshot | podshare.go:1101-1147 | on success the stored snapshot encodes the map minus expired tombstones; on failure only expired tombstones are gone, and they stay counted for ever |
| Store.Store.CollectLocked | podshare.go:971-978 | at the release of the lock the tombstone counter exceeds the map's tombstones by exactly those collected and not yet settled |
| Store.Store.TrackTransition | podshare.go:1177-1190 | the four conditional updates add the new and subtract the old state's share of each counter |
| Store.CountInstall | podshare.go:844-848 | how many live keys and tombstones a map has after one entry is put in |
| Store.Store.Get | podshare.go:263-273 | the live view's value, or the zero value and false |
| Store.Store.Keys | podshare.go:276-286 | each live key once |
| Store.Store.Version | podshare.go:542-550 | the stamp of a live key, the zero Version otherwise |
| Watchers.WatchersFaithful | podshare.go:864-916 | in every run nothing is sent to or closed on a closed channel, and each channel has received exactly the matching events from registration to its end |
| Watchers.DeliveryGuarantee | podshare.go:646-660 | a registered watcher has missed nothing; one that left holds a gapless prefix, and a dropped one a strict prefix |
| Watchers.DispatchExactly | podshare.go:887-904 | a registered watcher that matches and has room, or a receiver waiting on an empty buffer, receives the event and stays; one that matches with a full buffer and no such receiver is dropped and closed; one that does not match is left alone |
| Watchers.ConsumeTakesOldest | podshare.go:661-693 | a consumer takes the oldest buffered event, also from a closed channel |
| Watchers.ClosedIsFinal | podshare.go:907-916 | a closed channel changes only by its consumer |
| Watchers.WatcherTable.Dispatch | podshare.go:881-905 | the send loop and the drop loop, in any map order, are the dispatch step of DispatchExactly, and the drop counter counts the watchers that left |
| Watchers.WatcherTable.Watch | podshare.go:661-693 | on a closed store the channel comes back closed and unregistered |
| Watchers.WatcherTable.RemoveWatcher | podshare.go:907-916 | closes a registered watcher's channel once and is a no-op otherwise |
| Watchers.WatcherTable.CloseAll | podshare.go:736-744 | leaves no watcher registered, every channel closed and nothing lost from any |
| Persistence.NoLostPersistence | podshare.go:918-962 | in every run a marked write is covered by the map and, unless the last attempt at a snapshot failed, by this store's last snapshot, or a token is pending, or the loop is on its way to store a snapshot that covers it; that snapshot is the transport's unless a peer replaced it |
| Persistence.FinalFlushStoresAll | podshare.go:994-1002 | after a clean final flush the last snapshot this store put on the transport is the whole map as it was read |
| Persistence.FlushedBeforeEnd | podshare.go:933-936 | in every run that ended the loop, the map was read once more after the store was closed, and unless that attempt failed the last snapshot covers every write applied by then, marked or not |
| Persistence.ShutdownStoresAll | podshare.go:994-1002 | from wherever the loop waits, closing ends it with no token left and the whole map stored |
| Persistence.TickCollects | podshare.go:964-985 | a tick collects the expired tombstones and leaves a token exactly if there were any |
| Persistence.RoundCatchesUp | podshare.go:933-961 | from a pending token one round of the loop, also after failures, stores a snapshot that covers every applied write |
| Persistence.FailedStoreForgets | podshare.go:953-960 | after a failed store a marked write is neither stored nor pending |
| Persistence.PeerOverwrites | transport/memory.go:81-89 | a run in which a stored, marked write is taken off the transport by a peer's snapshot, with no token pending |
| Memory.RunsGapless | transport/memory.go:50-79 | in every run, publishers interleaving their sends: a subscriber whose queue never overflowed has received or holds each publisher's messages since it subscribed, in order, except one on its way; with none on its way it has exactly what was published since |
| Memory.DrainedHasAll | transport/memory.go:50-79 | once such a queue is empty and no publish is in flight, its consumer has received all of them |
| Memory.QueueHolds256 | transport/memory.go:59-76 | a subscriber holds 256 messages and loses the next one, and only then |
| Memory.PublishIsRun | transport/memory.go:50-68 | in whatever order it goes through the subscribers, an uninterrupted Publish is a run of the machine's begin, send and end steps |
| Memory.OppositeOrders | transport/memory.go:17-20 | two publishers can reach two subscribers in opposite orders |
| Memory.MemoryTransport.Publish | transport/memory.go:50-68 | one non-blocking send per subscriber of the topic; a full queue loses the message and a closed broker refuses it; with PublishIsRun, a run of the machine |
| Memory.MemoryTransport.Subscribe | transport/memory.go:70-79 | a channel that starts with what is published next |
| Memory.MemoryTransport.Snapshot | transport/memory.go:81-89 | replaces the topic's snapshot, or fails when closed |
| Joining.WorldIsClusterRun | podshare.go:192-207 | every run of stores on the broker is a run of the cluster machine, so its theorems hold of it |
| Joining.StepKeepsInv | podshare.go:192-207 | subscribing, loading, writing, publishing, handling, persisting, storing, refreshing and closing keep: a store knows what its snapshot knew and every write it was handed |
| Joining.HandleReceives | podshare.go:749-798 | a store that handles its mail takes the oldest message, and its map receives it as handleRaw does |
| Joining.PublishLogs | podshare.go:331-337 | what a store accepted it may publish, and the message is then on its way to every subscriber |
| Joining.StartsFromNothing | podshare.go:192-205 | a new store may subscribe and start empty when nothing is stored |
| Joining.SnapshotPasses | podshare.go:192-207 | what is stored is what a starting store decodes and a refreshing one merges |
| Joining.ClosedBrokerRefuses | transport/memory.go:104-118 | once the broker is closed nothing is published, subscribed, stored or fetched |
| Joining.CurrentKnowsAll | podshare.go:192-207 | a store whose queue never overflowed and is drained, and whose snapshot had heard what was published before it subscribed, knows every published write, its own and undecodable messages on the topic notwithstanding |
| Joining.LateJoiner | podshare.go:192-207 | in every such run a late joiner and a store that was there from the beginning, each reached by every accepted write through the log, by authorship or in its first snapshot, hold the same map where nothing was collected; where nothing came back to life in one, they show the same exactly when nothing did in the other |
| Joining.JoinedFromStored | podshare.go:1065-1096 | a joiner that loads the snapshot an author persisted, at or after a point at which the author was up to date with a log at least as long as at the subscription, becomes up to date |
| Frames.DecodeEncodeFrame | transport/p2p.go:638-688 | reading back a written frame gives the frame and leaves the rest of the stream |
| Frames.FrameLayout | transport/p2p.go:638-660 | the bytes of a frame one by one: big-endian length, type, big-endian topic length, topic, payload |
| Frames.LimitsInBytes | transport/p2p.go:638-646 | a frame is writable exactly when its topic has at most 65535 bytes and all that its length counts at most 64 MiB |
| Frames.EncodeDecodeFrame | transport/p2p.go:662-688 | whatever parses is the encoding of what it parsed to, and was writable |
| Frames.NoPrefixParses | transport/p2p.go:662-688 | no proper prefix of a frame parses; which end-of-stream error it gives |
| Frames.EofMeans | transport/p2p.go:374-381 | a plain EOF means an empty stream or one cut right behind a legal length header |
| Frames.ParseEncodeAll | transport/p2p.go:638-688 | parsing the concatenation of any writable frames gives exactly those frames |
| Frames.EncodeParseAll | transport/p2p.go:638-688 | every fully parsed stream is the re-encoding of its frames |
| Frames.TornStream | transport/p2p.go:370-393 | wherever a stream is cut, the receiver delivers exactly the frames that had arrived in full and then sees the end |
| Frames.FillHeader | transport/p2p.go:647-651 | the header buffer filled in place holds length, type, topic length and topic |
| Frames.WriteFrame | transport/p2p.go:638-660 | both refusals, the whole frame, or a proper prefix of it on a failing connection |
| Frames.ReadFrame | transport/p2p.go:662-688 | agrees with the stream parser on every stream, errors included |
| Frames.SendAll | transport/p2p.go:396-412 | what a sender puts on the wire is a prefix of the encoding of the frames before the first refused one, all of it unless the connection gives out; it fails exactly when one of the two happens |
| Frames.ReceiveAll | transport/p2p.go:370-393 | the receive loop delivers the parsed frames and stops at the first error |
| CallReply.StepKeepsInv | callreply/callreply.go:236-457 | every step of callers, serving goroutines, local calls and the network keeps: envelopes genuine, replies earned, outcomes deserved, slots counted |
| CallReply.CallSafety | callreply/callreply.go:236-305 | in every run a result or handler error a remote Call returns comes from a handler execution for its id, target, method and args on the pod its route named; the only other remote errors are that pod's busy and no-handler replies |
| CallReply.OutcomeStable | callreply/callreply.go:445-457 | what a Call returned never changes, whatever duplicate or late replies arrive |
| CallReply.GivesUpOnlyWhenTold | callreply/callreply.go:295-304 | in every run a Call that gave up did so because its context ended or its endpoint closed, never because of a reply |
| CallReply.OutcomeReaches | callreply/callreply.go:236-305 | for every call and every handler outcome there is a run in which the routed pod's handler has it and Call returns exactly what it amounts to |
| CallReply.UnregisteredIsRefused | callreply/callreply.go:211-219 | after a target is unregistered, a call on it already admitted is told there is no handler, and no other call is affected |
| CallReply.LocalCallRuns | callreply/callreply.go:309-329 | a call on the endpoint's own target can run its handler, gives its slot back and sends no reply |
| CallReply.ReplyIsolation | callreply/callreply.go:445-457 | processing a reply touches no other call, and nothing once its call is forgotten |
| CallReply.AdmissionBounded | callreply/callreply.go:382-389 | in every run slots held are exactly the admissions in progress and never exceed the cap, so no more handlers run at once |
| CallReply.OneReplyEach | callreply/callreply.go:377-443 | a completed served envelope attempted exactly one reply, with its own id, and holds no slot |
| CallReply.FailureReadsAsSuccess | callreply/callreply.go:296-299 | for every call and error text, a run in which the handler fails and Call returns success if and only if the text is empty |
| Endpoint.AnswerIsTaskRun | callreply/callreply.go:377-429 | a task of the machine run alone makes the one reply serveCall makes |
| Endpoint.Endpoint.ServeCall | callreply/callreply.go:377-429 | busy, no handler, error or result: one reply to a given address, none without, the slot given back, the handler run at most once |
| Endpoint.Endpoint.CallLocal | callreply/callreply.go:309-329 | the handler is looked up before the semaphore is tried; the slot is given back |
| Endpoint.Endpoint.DeliverReply | callreply/callreply.go:445-457 | only the named call's channel can change, and only while pending and empty |
| Endpoint.Endpoint.Register | callreply/callreply.go:189-209 | refuses empty names and a missing handler; otherwise installs exactly this handler, even if publishing the route of a new target fails |

## Left out

- The Redis transport: its behaviour is that of a Redis server, which is not part of this model.
- Sockets, TLS, keepalive, dialling, reconnects and snapshot polling of the P2P transport: I/O and waiting; the lossy, duplicating network stands for them.
- Peer discovery and the peer list.
- JSON envelopes and the concrete codecs: abstract, with the round-trip law. JSON replaces invalid UTF-8 in keys and ids; the envelope is taken to be exact.
- Timers, deadlines, context cancellation and `CloseWithContext` timeouts: nondeterministic steps without durations.
- Logging, error callbacks, options, the Prometheus collector and the read, byte and event counters other than those named above.
- Wrap-around of the 64-bit Seq, and the randomness of generated ids.
- Store.Store.Seed: the write counter is added after the lock is released, so the bound of writes applied by map size is stated at the end of the call.
- Store.Store.SetMany: the map's loop is one critical section and dispatch and publishing follow it in one method; interleavings of dispatch with other writes are `Fanout`.
- The broker's lock: Go makes new readers wait behind a waiting writer; the machine lets them in, which only adds runs. The `MemoryTransport` class runs each method alone; interleaved publishes are steps of the machine.
- Stores on several topics of one broker: `Joining` has one topic.
- Route ownership of Register and Unregister: Unregister deletes the route whoever owns it now.
- Exactly-once execution of handlers: a duplicated call envelope runs its handler again; only correlation is claimed.
- The interleavings of endpoints are modelled on values, as steps of a machine; the `Endpoint` class runs each method alone.
