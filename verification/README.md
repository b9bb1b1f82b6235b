# A model of Tailpath

Tailpath is a small distributed protocol. Exporters sample their peers and send hello, inventory, traffic,
heartbeat, withdrawal and relay reports; the server folds them into a canonical graph of nodes and edges,
logs path transitions, and rolls traffic up into a layered history. This project models its five cores and
proves what they are for:

- **Observer protocol** (`Meters`, `Wire`, `Sources`, `Exporter`, `Sink`, `SnapshotSinks`). The snapshot sink
  is a class whose methods are its event handlers and send loops; the network may lose, delay and repeat any
  envelope and any answer, and other reporters may take observers over. One invariant, `Stands`, holds between
  any two events of any run. It says that no observer is orphaned, that the sink's beliefs are true of the
  server, and that no byte is reported twice; `Sink` draws the three conclusions and shows by example what
  escapes each.
- **Canonical identity graph** (`Canonical`, `Admission`, `Pairing`, `Reports`, `Invariants`, `Quotient`,
  `ScopeQuotient`, `PairLaws`, `Inference`, `RelayLaws`, `ReportProofs`, `DeviceDirectory`, `Redirects`,
  `Witnesses`, `Aggregation`). `Canonical` and `Reports` say as functions what a step does;
  `Aggregation.Aggregator` does it in place, method by method, and is proved to end in those states. Random IDs
  and map orders come from an oracle, and every claim is for all fair oracles. Merging is proved to be a
  partition refined by the least equivalence of the merges done, and the rebuilding of edges and relay scopes to
  be quotients; what relay pairs allow to be inferred is proved about sessions, clients and nodes.
- **Checkpoint, log and replay** (`Recovery`, `Normalization`, `Determinism`). `App` restores, replays, records
  and checkpoints. Its invariant is that the database can rebuild the live state under any other draw of IDs
  and orders.
- **Layered history** (`Traffic`, `History`, `HistoryEdges`, `PathLog`). Ten-second, minute and hour tables with
  cursors; what a summary adds up to is proved against a ghost log of everything ever recorded.
- **Path evidence and lifecycle** (`Evidence`, `Untouched`, `Transitions`, `Lifecycle`). The decision depends on the set of
  sightings alone; transition logs never stutter; `NextChangeAt` announces the next change.

A sixth, `SpatialIndexing`, is the label layout's grid index, which is proved to agree with a linear scan.

Texts are atoms with an order, and composite keys are structured; times are integers in nanoseconds, with
`NEVER` for the zero time. Hashes and random IDs are injective or fresh by assumption, and what the network,
the clock and the database decide (fates of envelopes, readings of the clock, failures of a commit, row IDs)
are parameters. `Names` holds the atoms.

Some properties turned out to hold only under a condition, which is proved to be exact unless it says otherwise:

- `Recovery.SurvivesIffNotReused`: the reports table has no AUTOINCREMENT, so after maintenance has emptied it row
  IDs start over, and until they reach the one that the checkpoint names, reports recorded without a checkpoint are
  not replayed (`FirstAreLost`).
- `DeviceDirectory.NeverConflatesIff` and `FoundAgainIffNamed`: the stable ID "0" passes normalisation of a
  snapshot but is filtered when aliases are bound. A device that carries it gets another node with every
  snapshot, or, if it comes with a node key of its own, may absorb a node that carries a stable ID.
- `Evidence.Rerun`: feeding back a result whose kind is empty counts as no previous path (`EmptyKindMoves`).
- `Redirects.AgreeIff`: in a loop of redirects the two resolvers may differ; no reachable graph has one.
- `RelayLaws.EndsLiveIff`: a session ends up with a dead source when the identity its target shows absorbs it, and
  the edge that is counted then has a dead end (`Witnesses.DeadEndIsReached`).
- `Transitions.ResultUnlessMerged`: a report that merges an end of an edge after it touched that edge may run into a
  nil edge and have no result (`Witnesses.FailureIsReached`). That is a sufficient condition for a result.
- `Lifecycle.RatesSplitIff`: when relays tie, the map order decides which rate a snapshot shows.
- `Lifecycle.EdgeStaysIff`: whether an edge stays visible past a deadline that falls on this very instant. For the
  rest of the view `NextChangeIsSound` excludes such deadlines, and nothing is said in the other direction.
- `Normalization.RevivedIffListed`, `Sink.LateHelloRevivesIff`, `PathLog.AnchorKeptIff`,
  `History.LateTrafficIsLostIff`, `SpatialIndexing.FindableIffMeets` say the same of restarts, late envelopes, idle
  edges, late traffic and rectangles.

To verify: `dafny verify dfyconfig.toml`.

## Model

| member | source | states |
|---|---|---|
| SnapshotSinks.SnapshotSink.Run | exporter/sink.go:303-345 | after any sequence of registrations, sampler results, withdrawals and ticks, whatever becomes of the envelopes: nothing the server may own is untracked but identities whose withdrawal was refused and late claims; unless another reporter took something over every connected source's belief is true; unless something was late no byte was applied twice; and unless something was refused or late, a withdrawal that ended with nil left the server owning nothing of its source, until that source is heard of again |
| SnapshotSinks.SnapshotSink.Stop | exporter/sink.go:1044-1061 | every withdrawal still under way is told an error, unless it was told before |
| Sink.NoOrphan | exporter/sink.go:404-560 | whenever the sink's invariant holds (it does between any two events of any run, by the methods of `SnapshotSink`), with no refused withdrawal and nothing late: every identity that the server owns, or that an envelope still on its way would make it own, is in its source's `serverRef`, `uncertainRefs` or `withdrawals`; a source that is gone owns nothing |
| Sink.BeliefRefinesServer | exporter/sink.go:859-895 | with one reporter: a connected source has a `serverRef`, and the server records this reporter as owner of that identity with that inventory generation, under any loss, delay and repetition |
| Sink.BytesAtMostOnce | exporter/sink.go:775-828 | for every source and counter, all deltas the server ever applied add up to at most the positive increments of that counter, across resets, failures, resyncs and splits |
| Sink.RefusedWithdrawalOrphans | exporter/sink.go:937-951 | the exception is real: a refused withdrawal leaves the observer owned on the server and tracked by nobody |
| Sink.LateHelloRevivesIff | internal/aggregate/aggregator.go:963-971 | a hello that arrives late changes ownership exactly when the reporter's sequence memory was pruned in between |
| SnapshotSinks.SnapshotSink.HandleEvent | exporter/sink.go:404-524 | events of a registration that is gone, or withdrawing, change nothing; any other replaces the one source's state by the event's outcome and keeps the invariant |
| SnapshotSinks.SnapshotSink.HandleWithdraw | exporter/sink.go:499-524 | from then on the source only withdraws, and everything the server may own for it is on its list |
| SnapshotSinks.SnapshotSink.Register | exporter/sink.go:223-247 | a registration needs a key and a source, the key must be free, and the sink must not have stopped |
| SnapshotSinks.SnapshotSink.AcceptReceipt | exporter/sink.go:907-917 | control nodes are those of the last receipt; the heartbeat interval changes only to one between ten seconds and ten minutes |
| SnapshotSinks.SnapshotSink.OperationsForKind | exporter/sink.go:639-712 | exactly the eligible sources get an operation, saying what they have to say; a source whose counters did not move gets none and moves its baseline |
| SnapshotSinks.BatchCount | exporter/sink.go:759-773 | the batch fits, is no longer than the bound, and one more operation would not fit |
| SnapshotSinks.SnapshotSink.SendOnce | exporter/sink.go:775-828 | what the answer to one envelope means: refused, a batch of one is rejected and a longer one is to be split; unanswered, its hellos are in doubt; not accepted, nothing changes; accepted, every operation is confirmed, and a resync counts unless it answers a hello; control nodes and heartbeat change with an accepted receipt and with nothing else |
| SnapshotSinks.SnapshotSink.SendBatch | exporter/sink.go:775-828 | recursive splitting ends with every operation confirmed or rejected unless the transport failed |
| SnapshotSinks.SnapshotSink.SendOperations | exporter/sink.go:731-757 | every operation is confirmed or rejected unless the transport failed or the server asked for a resync |
| SnapshotSinks.SnapshotSink.RejectOperation | exporter/sink.go:937-951 | one source is rejected, and what its withdrawal leaks is recorded |
| SnapshotSinks.SnapshotSink.MarkDisconnected | exporter/sink.go:1015-1029 | every source disconnects, and beliefs that a failure had made doubtful are given up |
| SnapshotSinks.SnapshotSink.FinalizeWithdrawals | exporter/sink.go:1031-1042 | exactly the finished sources go, their registrations with them, each told nil unless a withdrawal failed; the server owns nothing for them, and no envelope on its way can change that |
| SnapshotSinks.SnapshotSink.Flush | exporter/sink.go:562-626 | the invariant survives a whole flush; a source that is gone is clean on the server; without a link only withdrawals finish, an unreachable server makes every source start over, and an incompatible one ends the loop |
| SnapshotSinks.SnapshotSink.RelayOperations | exporter/sink_relay.go:48-82 | exactly the eligible sources with a session that moved get an operation, naming every such session; the others move their baseline |
| SnapshotSinks.SnapshotSink.SendRelayOperations | exporter/sink_relay.go:84-130 | unless stopped, every source with an operation has its latest reading as its baseline; no other source changes |
| Meters.ChangedPeers | exporter/sink.go:1214-1246 | the deltas of exactly the peers known before that are no control nodes and rose, and what each rose by |
| Meters.ChangedSessions | exporter/sink_relay.go:223-272 | the deltas of exactly the sessions that moved without restarting; none at all if one of those is out of the protocol's range |
| Meters.ClaimsAreCovered | exporter/sink.go:1248-1253 | what is claimed from a baseline never exceeds what was moved since that baseline was taken |
| Sources.AppendRef | exporter/sink.go:553-560 | exactly that identity joins the list, if it was not on it |
| Sources.RemoveRef | exporter/sink.go:897-905 | exactly that identity leaves the list |
| Sources.Retained | exporter/sink.go:537-551 | exactly the references to the identity now observed stay uncertain |
| Sources.OnSnapshotKeeps | exporter/sink.go:430-458 | a snapshot, whatever identity it shows, loses track of nothing and establishes no belief |
| Sources.OnWithdrawKeeps | exporter/sink.go:526-535 | after queueing, everything tracked is on the withdrawal list |
| Sources.ConfirmKeeps | exporter/sink.go:859-895 | an accepted operation loses track of nothing but the identity it withdrew |
| Sources.RejectKeeps | exporter/sink.go:937-951 | nor does a rejected one |
| Sources.DoubtKeeps | exporter/sink.go:796-812 | a hello without an answer is tracked as uncertain |
| Wire.SendKeeps | internal/aggregate/aggregator.go:374-412 | whatever the network and other reporters do during a send, nothing becomes ours but what the envelope claims, sequence memory stays coherent, and an answered hello, withdrawal or relay update is accepted |
| Wire.SendHolds | internal/aggregate/aggregator.go:377-393 | a belief about another observer survives a send that is refused or accepted |
| Wire.SendEstablishes | internal/aggregate/aggregator.go:420-444 | an accepted hello or inventory update makes its belief true |
| Wire.HappenAllKeeps | internal/aggregate/aggregator.go:374-393 | any number of deliveries, losses, prunings and take-overs, in any order, keep the world coherent |
| Exporter.SomeClaimNoMore | exporter/sink.go:775-828 | admitting some of what was sent, once each and in order, claims no more than all of it |
| Invariants.RunsAreAPartition | internal/aggregate/aggregator.go:849-904 | over every run of resolve and merge steps from the empty graph: two IDs have the same root exactly when the merges done link them, every ID ever known has a live root, and the state invariant holds |
| Invariants.LinkedIsLeastEquivalence | internal/aggregate/aggregator.go:1118-1152 | linking is the least equivalence that relates every merged pair |
| Invariants.KnownOnlyGrows | internal/aggregate/aggregator.go:1118-1152 | no ID is ever forgotten |
| Invariants.MergeKeepsSound | internal/aggregate/aggregator.go:1118-1152 | a merge keeps all indexes consistent, forgets no ID and moves exactly the absorbed node's IDs |
| Invariants.ResolveKeepsSound | internal/aggregate/aggregator.go:849-904 | resolution keeps them consistent and returns a live node, which is new exactly when it says so |
| Invariants.ClaimKeepsSound | internal/aggregate/aggregator.go:1044-1062 | a claim makes this reporter the owner and changes no other owner; both indexes agree |
| Invariants.WithdrawKeepsSound | internal/aggregate/aggregator.go:1064-1080 | a withdrawal ends this reporter's ownership and touches no other observer; both indexes agree |
| Invariants.PruneKeepsSound | internal/aggregate/aggregator.go:963-1002 | pruning keeps the invariant and changes no observer |
| ReportProofs.ApplyKeepsSound | internal/aggregate/aggregator.go:353-557 | any report, whatever IDs and map orders are drawn, keeps the invariant |
| Quotient.MergeQuotientsEdges | internal/aggregate/aggregator.go:1223-1272 | whatever order the maps are walked in, the edges after a merge are exactly the images of those that do not collapse: activity the maximum, system telemetry the disjunction, each observer's latest observation; and every edge is between live nodes |
| ScopeQuotient.RebuiltScopesAreQuotient | internal/aggregate/aggregator.go:1274-1332 | whatever order the map is walked in, the relay scopes after a merge are the quotient of the scopes before: times are the maxima, the pair is that of a scope whose pair was seen last, and each session is one of those with its ID that was seen last |
| ScopeQuotient.ScopesNameSurvivors | internal/aggregate/aggregator.go:1274-1310 | no scope, pair, session or client names the absorbed node any more |
| PairLaws.PairInForce | internal/aggregate/aggregator.go:765-788 | over every history of sightings through a relay the pair in force has not lapsed since it was taken, and the scope remembers when it, and when a rival, was last seen since then |
| PairLaws.EstablishedIff | internal/aggregate/aggregator.go:790-796 | inference is allowed exactly when the pair was seen within the window and, since it was taken, no other pair was |
| PairLaws.RivalForgotten | internal/aggregate/aggregator.go:775-781 | a rival seen before the pair was taken does not count, however recent |
| Inference.RecordedPair | internal/aggregate/aggregator.go:765-825 | after recording, and whatever is inferred from it: the pair is the new one exactly when the old one had lapsed or was the same, otherwise it stays and the rival is noted |
| Inference.ReconcileCompletes | internal/aggregate/aggregator.go:790-825 | whatever order the sessions are visited in: every recent session with one end in an established pair and an unresolved node at the other ends up with both ends in the pair, and the pair is what it was |
| Inference.ReconcileSparesResolved | internal/aggregate/aggregator.go:790-830 | inference absorbs no node that has an identity of its own, even when a scope merges away under the loop |
| RelayLaws.ClientKeepsItsNode | internal/aggregate/aggregator.go:735-763 | whatever identity a client comes to show, the node it was and the node it is are one from then on, and that node is live; a client that shows none stays the node it was or becomes a new one |
| RelayLaws.EndsLiveIff | internal/aggregate/aggregator.go:697-763 | the ends a session is resolved to are both live, and all scopes name live nodes, exactly unless the target, once the source is placed, shows an identity that is not the source's node and that node either matches it or is the node the target's client had |
| RelayLaws.SwallowsIff | internal/aggregate/aggregator.go:735-763 | resolving a relay client absorbs a given live node exactly when the client shows a usable identity, the node is not the one that identity resolves to, and it matches the identity or was the client's node |
| Witnesses.DeadEndIsReached | internal/aggregate/aggregator.go:697-763 | that happens: from the empty graph, one relay update with two sessions leaves an edge one end of which is not a live node, whatever IDs and map orders are drawn |
| Quotient.RebuiltIsQuotient | internal/aggregate/aggregator.go:1223-1272 | the same for the loop on its own |
| Quotient.ResolveKeepsEdgesLive | internal/aggregate/aggregator.go:849-904 | resolving an identity, merges and all, leaves every edge between live nodes |
| DeviceDirectory.DirectoryNeverConflates | internal/aggregate/aggregator.go:223-262 | with no such device in a normalised snapshot (see `NeverConflatesIff`): every device is mapped to a live node; a node that disappears carried no stable ID; two devices share a node exactly when their stable IDs named one before |
| DeviceDirectory.NeverConflatesIff | internal/aggregate/aggregator.go:223-298 | that holds for every graph exactly when no device of the snapshot with the stable ID "0" comes with a node key of its own: such a device can absorb a node that carries a stable ID |
| DeviceDirectory.ConflationIsReached | internal/aggregate/aggregator.go:223-298 | two identities and a snapshot reach a graph in which such a device makes a node with a stable ID disappear |
| DeviceDirectory.FoundAgainIffNamed | internal/aggregate/aggregator.go:264-298 | a device that comes without a node key, and is new, is mapped to the same node at its next synchronisation exactly when its stable ID can be an alias: "0" cannot |
| Redirects.ResolveNodeID | internal/store/history_query.go:1005-1024 | on any redirects: the end of the chain, or in a loop the least ID passed |
| Redirects.ResolveDirectionalNodeID | internal/domain/directional_paths.go:163-173 | on any redirects: the end of the chain, or in a loop the ID where it closes |
| Redirects.AgreeIff | internal/domain/directional_paths.go:163-173 | the two resolvers agree on an ID exactly when its way ends, or closes at its least ID |
| Redirects.BothFindTheRoot | internal/store/history_query.go:1005-1024 | on the redirects of any reachable graph both answer the root, which is live for every ID ever handed out |
| Redirects.LoopsSplitThem | internal/domain/directional_paths.go:163-173 | a loop of two, entered at its greater ID, splits them |
| Aggregation.Aggregator.ApplyReport | internal/aggregate/aggregator.go:353-557 | the report's result and the whole new state are those of the specification `Apply`; where the program would dereference nil there is no result |
| Aggregation.Aggregator.MergeNodes | internal/aggregate/aggregator.go:1118-1152 | all seven indexes become those of the specification `Merge` |
| Aggregation.Aggregator.RebuildEdges | internal/aggregate/aggregator.go:1223-1272 | the edges become those of the specification that `Quotient` is about |
| Aggregation.Aggregator.MergeObserverStates | internal/aggregate/aggregator.go:1185-1221 | observers and listings become those of the specification of ownership merging |
| Aggregation.Aggregator.RebuildScopes | internal/aggregate/aggregator.go:1274-1310 | the scopes become those of the specification that `ScopeQuotient` is about |
| Aggregation.Aggregator.ResolveIdentity | internal/aggregate/aggregator.go:849-904 | node, created, changed and the new state are those of `Resolve` |
| Aggregation.Aggregator.ClaimObserver | internal/aggregate/aggregator.go:1044-1062 | the new state is that of `Claim` |
| Aggregation.Aggregator.WithdrawObserver | internal/aggregate/aggregator.go:1064-1080 | the new state is that of `Withdraw` |
| Aggregation.Aggregator.PruneIndexes | internal/aggregate/aggregator.go:963-1002 | the new state is that of `Prune` |
| Aggregation.Aggregator.OwnsObservers | internal/aggregate/aggregator.go:1015-1027 | whether the reporter owns every observer named |
| Aggregation.Aggregator.ReplaceInventory | internal/aggregate/aggregator.go:597-609 | the update goes to the record the pointer refers to: where that record was discarded in a merge, edges still lose the peers no longer listed and the new inventory is lost |
| Aggregation.Aggregator.MarkObserverEdges | internal/aggregate/aggregator.go:559-575 | the edges the observer sees are remembered as they were known before the report |
| Aggregation.Aggregator.SnapshotEdge | internal/aggregate/aggregator.go:1613-1679 | an edge's evidence at an instant is the specified function of its fresh observations, in whatever order they are read |
| Aggregation.Aggregator.LogTransitions | internal/aggregate/aggregator.go:529-547 | each touched edge learns its evidence, and exactly those whose evidence changed are logged |
| Aggregation.Aggregator.ApplyDirectorySnapshot | internal/aggregate/aggregator.go:223-262 | the new state is that of `ApplyDirectory` |
| Aggregation.Aggregator.ResolveDirectoryDevice | internal/aggregate/aggregator.go:264-298 | the device's node and the new state are those of `ResolveDevice` |
| Evidence.ReconcilePathEvidence | internal/domain/path_evidence.go:18-87 | the primary key and the ordered conflict keys are what `Decides` says of the set of sightings |
| Evidence.DecisionUnique | internal/domain/path_evidence.go:18-87 | the set of sightings admits one decision |
| Evidence.OrderAndClockFree | internal/domain/path_evidence.go:18-87 | permuting the observations or changing any clock reading changes neither the primary key nor the conflict keys |
| Evidence.Rerun | internal/domain/path_evidence.go:18-87 | feeding the result back gives the same keys exactly when the result names its kind or leads anyway |
| Evidence.EmptyKindMoves | internal/domain/path_evidence.go:18-87 | a result of empty kind that does not: fed back, it gives way to what the source end reports |
| Evidence.UniqueRelayStables | internal/domain/path_evidence.go:162-186 | an endpoint is resolved exactly when all relay sightings that name one agree on it |
| Evidence.EnrichKeepsKey | internal/domain/path_evidence.go:138-160 | filling in details never changes the evidence |
| Evidence.SamePathEvidence | internal/domain/path_evidence.go:116-126 | decides the relation `SameEvidence` |
| Evidence.SameIsEquivalence | internal/domain/path_evidence.go:116-126 | that relation is an equivalence |
| Evidence.DirectionalPaths | internal/domain/directional_paths.go:12-53 | everything the source observed comes first, then everything the target observed, each with its relay looked up; nobody else speaks |
| Evidence.ProjectedOnce | internal/domain/directional_paths.go:12-53 | with one observation by each observer there is one such result |
| Evidence.LogWithoutStutter | internal/aggregate/aggregator.go:529-547 | a log that appends on change has no two equal neighbours and ends in what is known |
| Evidence.LogIsCollapsedHistory | internal/aggregate/aggregator.go:529-547 | such a log is the history with repetitions collapsed |
| Untouched.MergeSpares | internal/aggregate/aggregator.go:1223-1272 | a merge leaves what is known of every edge alone whose two distinct ends neither absorb nor are absorbed by it, and keeps the invariant this rests on: edges were active once, and their directions name their own ends |
| Transitions.ReportTracks | internal/aggregate/aggregator.go:353-557 | whatever a report merges: the log of every edge whose ends it does not merge advances by exactly the evidence found for that edge, if the report touches it |
| Transitions.ResultUnlessMerged | internal/aggregate/aggregator.go:529-531 | a report has a result unless it settles on an observer without a record or merges an end of an edge that it touched |
| Witnesses.FailureIsReached | internal/aggregate/aggregator.go:529-531 | and one that has none: from the empty graph, one relay update in which a client shows two identities one after the other runs into a nil edge |
| Transitions.DirectorySpares | internal/aggregate/aggregator.go:223-262 | a directory snapshot leaves what is known of such an edge alone |
| Transitions.LogNeverStutters | internal/aggregate/aggregator.go:529-547 | over every run of reports and directory snapshots, whatever nodes they merge: the transitions logged for an edge whose two ends neither absorb a node nor are absorbed are the evidence that the reports touching it found, in order and with repetitions collapsed; no two neighbours are the same, and what is known is what was found last |
| Transitions.RunsAreSane | internal/aggregate/aggregator.go:611-674 | the invariant this rests on holds over every run |
| Transitions.LoopsAreDropped | internal/aggregate/aggregator.go:1223-1236 | an edge from a node to itself is dropped by any merge |
| Lifecycle.NextChangeIsSound | internal/aggregate/aggregator.go:1403-1481 | unless a deadline falls on this very instant, visible edges and nodes, their states, fresh observations, evidence, the rates that may be shown and online flags are the same at every instant up to `NextChangeAt` |
| Lifecycle.SnapshotRates | internal/aggregate/aggregator.go:1613-1660 | in whatever order the observations are read, the rates shown are among those that may be shown |
| Lifecycle.RatesSplitIff | internal/aggregate/aggregator.go:1613-1660 | more than one rate may be shown at one instant exactly when no end is heard and relays heard at the same latest instant report different rates |
| Witnesses.TieIsReached | internal/aggregate/aggregator.go:635-674 | that happens: from the empty graph, one relay update with two sessions of the same clients through two relays leaves an edge for which two rates may be shown |
| Lifecycle.EdgeStaysIff | internal/aggregate/aggregator.go:1403-1481 | a visible edge is still visible up to then exactly when its evidence does not run out at this very instant |
| Lifecycle.NextChangeAt | internal/aggregate/aggregator.go:1403-1481 | the least deadline still to come of anything shown, or none |
| Recovery.RunAll | internal/app/app.go:81-213 | after any sequence of submits, directory commits and maintenance, any of which may fail, and with the row IDs that the database gives, the database can rebuild the live state unless a report was lost to a reused row ID, which takes a maintenance run |
| Recovery.RunAndRestart | internal/app/app.go:25-213 | and then an application started on that database has exactly the state that was live, unless a report was lost |
| Recovery.App.Start | internal/app/app.go:25-75 | restoring the checkpoint and replaying what follows it gives the state that was live when the database was last written, if it can be rebuilt, whatever IDs and orders the replay draws |
| Recovery.App.SubmitAt | internal/app/app.go:81-120 | a committed report leaves the applied state live and recorded under the next row ID, checkpointed exactly when identities changed, a withdrawal was applied or a checkpoint was due; otherwise nothing changes; it is lost to a restart exactly when it is not checkpointed and its row ID does not follow the checkpoint's, and a checkpoint heals that |
| Recovery.App.Maintain | internal/store/sqlite.go:550-570 | deleting reports the checkpoint has folded in loses no pending report |
| Recovery.App.CommitDirectory | internal/app/app.go:200-213 | a directory change is checkpointed in full or not made at all |
| Recovery.App.ApplyDirectorySnapshot | internal/app/app.go:130-151 | a snapshot that normalisation rejects, or a commit that fails, changes nothing; otherwise the live state becomes that of `ApplyDirectory`, and the database can rebuild it unless a device with the stable ID "0" comes with a node key of its own |
| Recovery.App.UpdateDirectorySyncState | internal/app/app.go:157-173 | an empty directory appears if there was none |
| Recovery.App.ClearDirectory | internal/app/app.go:179-194 | the directory goes if there was one |
| Recovery.App.SaveCheckpoint | internal/store/sqlite.go:485-517 | nothing is pending after a checkpoint |
| Recovery.RecordedReplays | internal/store/sqlite.go:111-185 | a stored report that neither allocated nor merged replays to the state it left, although it was stored redacted and other IDs and orders are drawn |
| Recovery.SurvivesIffNotReused | internal/store/migrations.go:255-263 | a report recorded without a checkpoint is replayed after a restart exactly when its row ID is greater than the one the checkpoint names |
| Recovery.FirstAreLost | internal/store/migrations.go:255-263 | of reports recorded one after another without a checkpoint the first are not replayed, as many as there are row IDs up to the one the checkpoint names, and exactly the others are |
| Recovery.MaintenanceEmptiesIff | internal/store/sqlite.go:550-570 | maintenance leaves the table empty, so that row IDs start over, exactly when its last row was checkpointed; otherwise the next row ID still follows the checkpoint's |
| Recovery.RowsAfter | internal/store/sqlite.go:523-548 | exactly the rows after the checkpoint's |
| Recovery.InOrderAfter | internal/store/sqlite.go:523-548 | in the order they were recorded |
| Determinism.QuietIsDeterministic | internal/aggregate/aggregator.go:369-373 | a report that changed no identity ends in the same result under any other draw of IDs and map orders |
| Determinism.RedactionIsInvisible | internal/store/sqlite.go:187-204 | applying a report with its disco hints redacted gives the same result and state |
| Normalization.NormalizeState | internal/aggregate/aggregator.go:1940-2044 | establishes `Normal` from any decoded state |
| Normalization.NormalIsCrossIndexed | internal/aggregate/aggregator.go:1965-2028 | from any decoded state whatever, owners and listings index each other |
| Normalization.NormalIsUnique | internal/aggregate/aggregator.go:1965-2028 | `Normal` has one answer |
| Normalization.NormalKeepsIndexed | internal/aggregate/aggregator.go:1965-2028 | on a state this version wrote it is the identity, so a withdrawn observer stays withdrawn |
| Normalization.RevivedIffListed | internal/aggregate/aggregator.go:1965-2028 | an observer without an owner gets one exactly when some stored reporter lists it |
| Normalization.NormalizeDirectory | internal/aggregate/aggregator.go:2046-2089 | refuses a checkpoint exactly when some device has no live node; otherwise keeps every entry and completes the missing ones |
| Normalization.RestoreState | internal/aggregate/aggregator.go:1794-1810 | the restored ownership index is consistent; what the aggregator wrote is read back exactly |
| Traffic.LayeredIsSandwiched | internal/store/history_query.go:604-624 | the layered total of a logical edge is at least any single physical edge's deduplicated total, at most the sum of ten-second maxima, and equal when one physical edge has all the traffic |
| History.Store.Summary | internal/store/history_query.go:573-602 | the summary of a logical edge over any window within retention is sandwiched so, with respect to everything ever recorded, from the first bucket that starts in the window to the last, in the layers that cover its two ends |
| History.Store.StitchLayers | internal/store/history_query.go:604-646 | hours, minutes and ten-second buckets of any window follow on one another without gap or overlap: their total is the layered total of the recorded traffic |
| History.Store.Live | internal/store/history_rollup.go:23-139 | over any sequence of inserts and maintenance runs with any clock values: cursors are aligned and never move back, the hour cursor never passes the minute cursor, and every raw row at or after the minute cursor is still what was recorded |
| History.Store.Rollup | internal/store/history_rollup.go:23-51 | for any clock value: cursors never move back, no row at or after its cursor is lost or changed, and a second run at the same instant changes nothing |
| History.Store.RollupMinutes | internal/store/history_rollup.go:76-139 | rolls up to the end, keeping every row there was |
| History.Store.RollupHours | internal/store/history_rollup.go:76-139 | the same for hours, up to what minutes cover; the edge map only grows |
| History.Store.RollupHour | internal/store/history_rollup.go:209-243 | each logical edge that is rolled up is mapped to itself, and the layers still hold what was recorded |
| History.Store.DeleteCovered | internal/store/history_rollup.go:53-67 | deletes exactly the rows past retention that are covered by the next layer |
| History.Store.Record | internal/store/sqlite.go:233-258 | adds one observer's traffic to its ten-second bucket and writes the edge's mapping |
| History.LogicalRawTraffic | internal/store/history_rollup.go:141-176 | the flow of each edge over the minute, deduplicated bucket by bucket; an edge without a row had none |
| History.LogicalMinuteTraffic | internal/store/history_rollup.go:178-207 | for each logical edge the sum over the hour of its largest physical edge, minute by minute, in its direction |
| History.LateTrafficIsLostIff | internal/store/history_rollup.go:76-139 | whatever bucket traffic is added to and whoever observed it, minutes and hours still hold what was recorded exactly when it is not behind the minute cursor, does not change what its bucket says, or belongs to an hour past retention; behind the hour cursor this is exact for an edge that is all there is to its logical edge, and sufficient for any other |
| HistoryEdges.Rebuild | internal/store/history_edge_map.go:33-73 | the mapping table is exactly that of the redirects, for every physical edge that does not collapse |
| HistoryEdges.WriteMapping | internal/store/history_edge_map.go:75-97 | one row replaced or removed |
| HistoryEdges.DirectionIsKept | internal/store/history_edge_map.go:75-97 | logical ends are the roots of the physical ends, swapped exactly when the mapping says so |
| HistoryEdges.LogicalIsFixed | internal/store/history_edge_map.go:75-97 | a logical edge is mapped to itself |
| HistoryEdges.MappingsSettle | internal/store/history_rollup.go:209-243 | so mappings by redirects are such as the history relies on |
| HistoryEdges.RebuildFollowsMerge | internal/store/history_edge_map.go:33-73 | after a merge each physical edge is mapped to the image of the logical edge it had, turned once more if that image is turned |
| PathLog.CompactionPreserves | internal/store/history_rollup.go:273-296 | for an edge with traffic at or after the cutoff, every window from there has the same anchor and events before and after |
| PathLog.AnchorKeptIff | internal/store/history_rollup.go:273-296 | the anchor is lost exactly for edges without traffic since |
| PathLog.CompactionIsIdempotent | internal/store/history_rollup.go:273-296 | compacting twice is compacting once |
| PathLog.PagesAreASnapshot | internal/store/history_query.go:211-366 | following cursors while events are appended gives, page after page, the events in the window at the first call, once each, in (observed_at, id) order |
| PathLog.FollowingEnds | internal/store/history_query.go:211-366 | there are at most as many pages as events, and one; without a next cursor everything has been given |
| SpatialIndexing.SpatialIndex.Query | web/src/lib/layoutGeometry.ts:92-101 | whichever of the cell, broad or all path is taken, exactly the added items that a scan finds, each once |
| SpatialIndexing.SpatialIndex.Add | web/src/lib/layoutGeometry.ts:79-91 | the item is added, and filed where queries look |
| SpatialIndexing.SpatialIndex.Keys | web/src/lib/layoutGeometry.ts:67-78 | exactly the cells a rectangle covers, or none if it is broad |
| SpatialIndexing.FindableIffMeets | web/src/lib/layoutGeometry.ts:39-41 | for well-formed rectangles the scan finds an item exactly when it intersects the bounds |
| SpatialIndexing.InsideOutIsMissed | web/src/lib/layoutGeometry.ts:39-41 | for a rectangle turned inside out it may not |
| SpatialIndexing.MeetingShareACell | web/src/lib/layoutGeometry.ts:63-78 | rectangles that intersect share a cell |
| SpatialIndexing.CandidatesClearBody | web/src/lib/layoutGeometry.ts:122-143 | every candidate keeps the gap from the body it labels |
| SpatialIndexing.PlaceLabel | web/src/lib/layoutGeometry.ts:144-162 | the previous anchor if it is clear, else the first clear one; none exactly when no candidate is clear |
| SpatialIndexing.PlaceLabels | web/src/lib/layoutGeometry.ts:144-162 | names placed one after another keep `labelGap` from every earlier occupant and stay off every exclusion |
| SpatialIndexing.ApartIsMutual | web/src/lib/layoutGeometry.ts:39-41 | of two placed names neither comes within the gap of the other |

## Left out

- Sink.NoOrphan: holds while no withdrawal was refused (`dropped`) and no envelope arrived after the server forgot the reporter (`late`); `RefusedWithdrawalOrphans` and `LateHelloRevivesIff` show why.
- Sink.BytesAtMostOnce: holds while nothing was late, since a forgotten sequence number is admitted again.
- Sink.BeliefRefinesServer: holds while no other reporter has taken an observer over.
- Sink.LateHelloRevivesIff: is stated for the whole memory of the reporter being forgotten at once, as pruning does.
- Transitions.LogNeverStutters: is about edges with two distinct ends; `LoopsAreDropped` shows why.
- Transitions.ResultUnlessMerged: is one way; an edge whose end was absorbed may be counted again under its old ends, as in `Witnesses.DeadEndIsReached`.
- History.LateTrafficIsLostIff: for hours of an edge that shares its logical edge, only that the condition suffices.
- Evidence.OrderAndClockFree: is about keys; the details of a path (endpoint spelling, latest reading) do depend on clocks.
- DeviceDirectory.DirectoryNeverConflates: excludes snapshots in which a device with the stable ID "0" has a node key of its own, since `NeverConflatesIff` shows that these do conflate.
- Recovery.App.ApplyDirectorySnapshot: promises the invariant under that same condition only.
- History.Store.Summary: requires a start within retention and nothing recorded behind the minute cursor; the redirects that the edge map follows stay as they are.
- Lifecycle.NextChangeIsSound: leaves the identity status out of what is shown, and says which rates may be shown.
- Aggregation.Aggregator.ApplyReport: where the relay of a scope in hand takes part in a merge itself, the program goes on with a copy of the scope that may be discarded; what it infers from there is left open, but that each inferred merge absorbs an unresolved node.
- RelayLaws.EndsLiveIff: leaves that case out, and starts from scopes that name live nodes.
- Aggregation.Aggregator.SnapshotEdge: is about evidence; rates are in `Lifecycle.SnapshotRates`, and path details and candidates are left out.
- Evidence.ReconcilePathEvidence: does not say which details the chosen path and the conflicts carry; these depend on clocks and map order.
- Recovery.RunAndRestart: what is known of an edge is compared by evidence keys and directions; the stored path details depend on map order and may differ after a replay. The snapshots that `NeverConflatesIff` excludes are excluded here.
- Recovery.App.UpdateDirectorySyncState: leaves out the synchronisation status itself.
- Normalization.NormalizeDirectory: leaves out the validation of the stored snapshot and synchronisation status.
- Display names, hostnames, operating systems, public endpoints, clock skew, metadata conflicts and tags: carried along, never decided on.
- Validation of reports and snapshots: reports are taken as valid.
- The two endpoint fields that checkpoints do not store.
- The server as the sink sees it is modelled apart from the aggregator: one reporter, identities that are distinct and not merged, report IDs that are distinct for distinct sequence numbers.
- SnapshotSinks.SnapshotSink.Run: takes its inputs as a sequence.
- Goroutines, tickers, retry delays, and a withdrawal that is requested before the loop starts.
- Sorting and formatting of texts and times, SQL, JSON and cursors as strings.
- The per-edge detail query, `HistoryNodes` and the paging of `HistoryEdges`.
- Path anchors are compacted by a function on the log apart from `Store.Rollup`, and pages are described by what a query returns; the SQL statements have no steps to follow.
- Rounding in the layout: coordinates are reals; items of the index are compared by value.
- Edge routing, text measurement and all components of the web client.
- HTTP, TLS, authorisation, logging, the Tailscale adapters, the OAuth client and schema migrations.
