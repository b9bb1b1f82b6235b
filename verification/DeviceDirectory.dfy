/** Applying a device directory snapshot (applyDirectorySnapshotLocked): each device is mapped to a
    canonical node, and no two devices end up on one node unless they already were. */
module DeviceDirectory {
  import opened Names
  import opened Canonical
  import opened Invariants

  /** One device resolved: `conflicting` is the node that its node key names although that node carries
      another stable ID. */
  datatype DeviceResult = DeviceResult(graph: Graph, node: NodeId, conflicting: Option<NodeId>, canonical: bool)

  function OnlyStable(stable: Text): NodeIdentity {
    NO_IDENTITY.(stable := stable)
  }

  /** A node found by node key takes on the device's stable ID. */
  function Adopt(g: Graph, node: NodeId, stable: Text): Graph
    requires node in g.nodes
  {
    g.(nodes := g.nodes[node := g.nodes[node].(
         identity := MergeIdentity(g.nodes[node].identity, OnlyStable(stable)), status := Resolved)],
       aliases := g.aliases[StableAlias(stable) := node])
  }

  /** A node created for a device has been seen by the directory only. */
  function Unseen(g: Graph, node: NodeId): Graph {
    if node in g.nodes
    then g.(nodes := g.nodes[node := g.nodes[node].(lastEvidence := NEVER, identityCollectedAt := NEVER)])
    else g
  }

  function Allocate(g: Graph, cfg: Config, stable: Text, at: Time, o: Oracle): DeviceResult {
    var r := Resolve(g, cfg, OnlyStable(stable), at, o);
    DeviceResult(if r.created then Unseen(r.graph, r.node) else r.graph, r.node, None, r.canonical)
  }

  function ResolveDevice(g: Graph, cfg: Config, d: Device, keyShared: bool, at: Time, o: Oracle): DeviceResult {
    var byStable := if StableAlias(d.stable) in g.aliases then Some(g.aliases[StableAlias(d.stable)]) else None;
    var usable := d.nodeKey != EMPTY && !keyShared && NodeKeyAlias(d.nodeKey) in g.aliases;
    var conflicting := if usable then ConflictingNode(g, d.stable, NodeKeyAlias(d.nodeKey)) else None;
    if usable && conflicting.None? && g.aliases[NodeKeyAlias(d.nodeKey)] in g.nodes then
      var byKey := g.aliases[NodeKeyAlias(d.nodeKey)];
      if byStable.None? then DeviceResult(Adopt(g, byKey, d.stable), byKey, None, true)
      else if byKey != byStable.value then DeviceResult(Merge(g, byStable.value, byKey, o), byStable.value, None, true)
      else DeviceResult(g, byStable.value, None, false)
    else if byStable.Some? then DeviceResult(g, byStable.value, conflicting, false)
    else Allocate(g, cfg, d.stable, at, o).(conflicting := conflicting)
  }

  /** Two devices of one snapshot that claim the same node key: nobody gets to use it. */
  predicate KeyShared(devices: seq<Device>, key: Text) {
    exists d, e | d in devices && e in devices :: d.nodeKey == key && e.nodeKey == key && d.stable != e.stable
  }

  /** The directory being built, beside the graph whose old directory is still in place. */
  datatype Sync = Sync(graph: Graph, canonical: map<Text, NodeId>, conflicts: map<NodeId, set<Text>>)

  function AddConflict(conflicts: map<NodeId, set<Text>>, node: NodeId, stable: Text): map<NodeId, set<Text>> {
    conflicts[node := (if node in conflicts then conflicts[node] else {}) + {stable}]
  }

  function SyncDevice(s: Sync, cfg: Config, d: Device, keyShared: bool, at: Time, o: Oracle): Sync {
    var r := ResolveDevice(s.graph, cfg, d, keyShared, at, o);
    var conflicts :=
      if r.conflicting.Some? && r.conflicting.value != r.node && r.conflicting.value in r.graph.nodes
      then AddConflict(AddConflict(s.conflicts, r.node, r.graph.nodes[r.conflicting.value].identity.stable),
                       r.conflicting.value, d.stable)
      else s.conflicts;
    Sync(r.graph, s.canonical[d.stable := r.node], conflicts)
  }

  function SyncDevices(g: Graph, cfg: Config, all: seq<Device>, devices: seq<Device>, at: Time, o: Oracle): Sync {
    if devices == [] then Sync(g, map[], map[])
    else
      var last := devices[|devices| - 1];
      SyncDevice(SyncDevices(g, cfg, all, devices[..|devices| - 1], at, o),
                 cfg, last, KeyShared(all, last.nodeKey), at, o)
  }

  /** Devices that share a node key conflict with each other, wherever they were mapped. */
  function SharedKeyRivals(devices: seq<Device>, canonical: map<Text, NodeId>, node: NodeId): set<Text> {
    set d, e | d in devices && e in devices && d.nodeKey != EMPTY && d.nodeKey == e.nodeKey && d.stable != e.stable &&
               d.stable in canonical && canonical[d.stable] == node :: e.stable
  }

  function WithRivals(devices: seq<Device>, canonical: map<Text, NodeId>, conflicts: map<NodeId, set<Text>>)
    : map<NodeId, set<Text>>
  {
    map n | n in conflicts.Keys + canonical.Values &&
            (n in conflicts || SharedKeyRivals(devices, canonical, n) != {}) ::
      (if n in conflicts then conflicts[n] else {}) + SharedKeyRivals(devices, canonical, n)
  }

  function ApplyDirectory(g: Graph, cfg: Config, devices: seq<Device>, at: Time, o: Oracle): Graph {
    var s := SyncDevices(g, cfg, devices, devices, at, o);
    s.graph.(directory := Some(Directory(devices, s.canonical, WithRivals(devices, s.canonical, s.conflicts))))
  }

  // ---------------------------------------------------------------------------------------------
  // What it guarantees
  // ---------------------------------------------------------------------------------------------

  /** What NormalizeDirectorySnapshot accepts: stable IDs that are present and distinct. */
  predicate Normalised(devices: seq<Device>) {
    && (forall i | 0 <= i < |devices| :: devices[i].stable != EMPTY)
    && (forall i, j | 0 <= i < j < |devices| :: devices[i].stable != devices[j].stable)
  }

  /** A device whose stable ID can be no alias, but whose node key is looked up. */
  predicate ZeroByKey(devices: seq<Device>, d: Device) {
    d in devices && !Named(d.stable) && d.nodeKey != EMPTY && !KeyShared(devices, d.nodeKey)
  }

  predicate Guarded(devices: seq<Device>) {
    forall d | d in devices :: !ZeroByKey(devices, d)
  }

  /** From `g` to `h`, stable aliases stay put, the only new one is `stable`, and it names a node that no
      other stable ID names and that had none; nodes that disappear never carried a stable ID. */
  ghost predicate AddsOnly(g: Graph, h: Graph, stable: Text) {
    && (forall t: Text | StableAlias(t) in g.aliases ::
          StableAlias(t) in h.aliases && h.aliases[StableAlias(t)] == g.aliases[StableAlias(t)])
    && (forall t: Text | StableAlias(t) in h.aliases && StableAlias(t) !in g.aliases ::
          && t == stable && Named(t)
          && !HadStable(g, h.aliases[StableAlias(t)])
          && forall u: Text | StableAlias(u) in h.aliases && u != t ::
            h.aliases[StableAlias(u)] != h.aliases[StableAlias(t)])
    && (forall n | HadStable(g, n) :: HadStable(h, n))
  }

  ghost predicate HadStable(g: Graph, n: NodeId) {
    n in g.nodes && g.nodes[n].identity.stable != EMPTY
  }

  /** The node a device was mapped to carries a stable ID; it is the one its stable alias names or, where its
      stable ID can be no alias, one that no stable alias names. */
  ghost predicate Placed(g: Graph, stable: Text, node: NodeId) {
    && HadStable(g, node)
    && if StableAlias(stable) in g.aliases then g.aliases[StableAlias(stable)] == node
       else !Named(stable) && forall t: Text | StableAlias(t) in g.aliases :: g.aliases[StableAlias(t)] != node
  }

  lemma AdoptAddsOnly(g: Graph, node: NodeId, stable: Text)
    requires Sound(g) && node in g.nodes && g.nodes[node].identity.stable == EMPTY
    requires Named(stable) && StableAlias(stable) !in g.aliases
    ensures var h := Adopt(g, node, stable);
      Sound(h) && AddsOnly(g, h, stable) && h.aliases[StableAlias(stable)] == node
  {
    var h := Adopt(g, node, stable);
    assert h.nodes.Keys == g.nodes.Keys;
    forall u: Text | StableAlias(u) in g.aliases ensures g.aliases[StableAlias(u)] != node {
      var a := StableAlias(u);
      assert a.StableAlias? && a in g.aliases;
    }
  }

  lemma MergeAddsOnly(g: Graph, keep: NodeId, remove: NodeId, stable: Text, o: Oracle)
    requires Sound(g) && keep in g.nodes && remove in g.nodes && keep != remove
    requires g.nodes[remove].identity.stable == EMPTY
    ensures var h := Merge(g, keep, remove, o); Sound(h) && AddsOnly(g, h, stable)
  {
    MergeKeepsSound(g, keep, remove, o);
    MergedAliasesAndNodes(g, keep, remove, o);
    UnnamedRemovalAddsOnly(g, Merge(g, keep, remove, o), keep, remove, stable);
  }

  lemma UnnamedRemovalAddsOnly(g: Graph, h: Graph, keep: NodeId, remove: NodeId, stable: Text)
    requires Badged(g.nodes, g.aliases) && keep in g.nodes && remove in g.nodes && keep != remove
    requires g.nodes[remove].identity.stable == EMPTY
    requires h.aliases == RepointAliases(g.aliases, keep, remove)
    requires h.nodes == (g.nodes - {remove})[keep := MergeNode(g.nodes[keep], g.nodes[remove])]
    ensures AddsOnly(g, h, stable)
  {
    forall t: Text | StableAlias(t) in g.aliases ensures g.aliases[StableAlias(t)] != remove {
      var a := StableAlias(t);
      assert a.StableAlias? && a in g.aliases;
    }
  }

  lemma MergedAliasesAndNodes(g: Graph, keep: NodeId, remove: NodeId, o: Oracle)
    requires keep in g.nodes && remove in g.nodes && keep != remove
    ensures var h := Merge(g, keep, remove, o);
      && h.aliases == RepointAliases(g.aliases, keep, remove)
      && h.nodes == (g.nodes - {remove})[keep := MergeNode(g.nodes[keep], g.nodes[remove])]
  {
  }

  lemma AllocateAddsOnly(g: Graph, cfg: Config, stable: Text, at: Time, o: Oracle)
    requires Sound(g) && Fair(o) && stable != EMPTY && StableAlias(stable) !in g.aliases
    ensures var r := Allocate(g, cfg, stable, at, o);
      Sound(r.graph) && AddsOnly(g, r.graph, stable) && Placed(r.graph, stable, r.node)
  {
    AllocatedNode(g, cfg, stable, at, o);
    var r := Resolve(g, cfg, OnlyStable(stable), at, o);
    ResolveKeepsSound(g, cfg, OnlyStable(stable), at, o);
    UnseenKeepsSound(r.graph, r.node);
    UnseenIdentities(g, r.graph, stable, at, r.node);
    GrowAddsOnly(g, Unseen(r.graph, r.node), stable, r.node);
  }

  lemma UnseenIdentities(g: Graph, h: Graph, stable: Text, at: Time, node: NodeId)
    requires node !in g.nodes && stable != EMPTY
    requires h.nodes == g.nodes[node := NewNode(OnlyStable(stable), StatusOf(OnlyStable(stable)), at)]
    ensures var u := Unseen(h, node);
      && u.aliases == h.aliases && HadStable(u, node)
      && forall n | n in g.nodes :: n in u.nodes && u.nodes[n].identity == g.nodes[n].identity
  {
  }

  lemma UnseenKeepsSound(g: Graph, node: NodeId)
    requires Sound(g)
    ensures Sound(Unseen(g, node))
  {
    UnseenSkeleton(g, node);
    SkeletonKeepsSound(g, Unseen(g, node));
  }

  lemma UnseenSkeleton(g: Graph, node: NodeId)
    ensures SameSkeleton(g, Unseen(g, node))
  {
    var h := Unseen(g, node);
    assert h.nodes.Keys == g.nodes.Keys && h == g.(nodes := h.nodes);
  }

  lemma GrowAddsOnly(g: Graph, h: Graph, stable: Text, node: NodeId)
    requires Rooted(g) && node !in g.nodes && stable != EMPTY && StableAlias(stable) !in g.aliases
    requires h.aliases == if Named(stable) then g.aliases[StableAlias(stable) := node] else g.aliases
    requires HadStable(h, node)
    requires forall n | n in g.nodes :: n in h.nodes && h.nodes[n].identity == g.nodes[n].identity
    ensures AddsOnly(g, h, stable) && Placed(h, stable, node)
  {
    forall u: Text | StableAlias(u) in g.aliases ensures g.aliases[StableAlias(u)] != node {
      assert g.aliases[StableAlias(u)] in g.nodes;
    }
  }

  /** A stable ID that nothing knows is resolved by allocation, and bound if it can be an alias. */
  lemma AllocatedNode(g: Graph, cfg: Config, stable: Text, at: Time, o: Oracle)
    requires StableAlias(stable) !in g.aliases
    ensures var r := Resolve(g, cfg, OnlyStable(stable), at, o);
      && r.created
      && r.node == o.newId(g)
      && r.graph.aliases == (if Named(stable) then g.aliases[StableAlias(stable) := r.node] else g.aliases)
      && r.graph.nodes == g.nodes[r.node := NewNode(OnlyStable(stable), StatusOf(OnlyStable(stable)), at)]
      && r.graph.redirects == g.redirects
  {
    var i := OnlyStable(stable);
    assert StrongAliases(i) == if Named(stable) then [StableAlias(stable)] else [];
    assert AddressAliases(i) == [];
    assert WithoutConflict(g, i) == i;
    assert Matches(g, cfg, i, at) == {};
  }

  lemma DeviceAddsOnly(g: Graph, cfg: Config, d: Device, keyShared: bool, at: Time, o: Oracle)
    requires Sound(g) && Fair(o) && d.stable != EMPTY
    requires Named(d.stable) || d.nodeKey == EMPTY || keyShared
    ensures var r := ResolveDevice(g, cfg, d, keyShared, at, o);
      Sound(r.graph) && AddsOnly(g, r.graph, d.stable) && Placed(r.graph, d.stable, r.node)
  {
    var usable := d.nodeKey != EMPTY && !keyShared && NodeKeyAlias(d.nodeKey) in g.aliases;
    var conflicting := if usable then ConflictingNode(g, d.stable, NodeKeyAlias(d.nodeKey)) else None;
    if usable && conflicting.None? {
      var byKey := g.aliases[NodeKeyAlias(d.nodeKey)];
      assert byKey in g.nodes;
      if StableAlias(d.stable) !in g.aliases {
        assert g.nodes[byKey].identity.stable == EMPTY;
        AdoptAddsOnly(g, byKey, d.stable);
      } else if byKey != g.aliases[StableAlias(d.stable)] {
        assert g.nodes[byKey].identity.stable == EMPTY;
        MergeAddsOnly(g, g.aliases[StableAlias(d.stable)], byKey, d.stable, o);
      }
    } else if StableAlias(d.stable) !in g.aliases {
      AllocateAddsOnly(g, cfg, d.stable, at, o);
    }
  }

  /** From `g` to `h`: stable aliases stay put, a new one names a node that no other stable ID names, and
      nodes with a stable ID survive with one. */
  ghost predicate Extends(g: Graph, h: Graph) {
    && (forall t: Text | StableAlias(t) in g.aliases ::
          StableAlias(t) in h.aliases && h.aliases[StableAlias(t)] == g.aliases[StableAlias(t)])
    && (forall t: Text, u: Text |
          StableAlias(t) in h.aliases && StableAlias(t) !in g.aliases && StableAlias(u) in h.aliases && u != t ::
          h.aliases[StableAlias(u)] != h.aliases[StableAlias(t)])
    && (forall n | HadStable(g, n) :: HadStable(h, n))
  }

  lemma ExtendsOnce(g: Graph, h: Graph, next: Graph, stable: Text)
    requires Extends(g, h) && AddsOnly(h, next, stable)
    ensures Extends(g, next)
  {
  }

  /** After a prefix of the devices, each is mapped to the node its stable alias names. */
  ghost predicate Mapped(g: Graph, s: Sync, devices: seq<Device>) {
    && Sound(s.graph)
    && Extends(g, s.graph)
    && OnStableNodes(s.conflicts, s.graph.nodes)
    && EntriesFor(s.canonical, s.graph, devices)
  }

  lemma SyncDeviceMaps(
    g: Graph, s: Sync, cfg: Config, devices: seq<Device>, d: Device, keyShared: bool, at: Time, o: Oracle)
    requires Fair(o) && Mapped(g, s, devices) && d.stable != EMPTY
    requires Named(d.stable) || d.nodeKey == EMPTY || keyShared
    ensures Mapped(g, SyncDevice(s, cfg, d, keyShared, at, o), devices + [d])
  {
    DeviceAddsOnly(s.graph, cfg, d, keyShared, at, o);
    var r := ResolveDevice(s.graph, cfg, d, keyShared, at, o);
    ExtendsOnce(g, s.graph, r.graph, d.stable);
    SyncConflicts(s, cfg, d, keyShared, at, o);
    EntriesOnce(s.canonical, s.graph, r.graph, devices, d, r.node);
  }

  lemma SyncConflicts(s: Sync, cfg: Config, d: Device, keyShared: bool, at: Time, o: Oracle)
    requires Sound(s.graph) && OnStableNodes(s.conflicts, s.graph.nodes)
    requires var r := ResolveDevice(s.graph, cfg, d, keyShared, at, o);
      HadStable(r.graph, r.node) && forall n | HadStable(s.graph, n) :: HadStable(r.graph, n)
    ensures var t := SyncDevice(s, cfg, d, keyShared, at, o); OnStableNodes(t.conflicts, t.graph.nodes)
  {
    var r := ResolveDevice(s.graph, cfg, d, keyShared, at, o);
    ConflictHasStable(s.graph, cfg, d, keyShared, at, o);
    assert forall n | n in s.graph.nodes && s.graph.nodes[n].identity.stable != EMPTY :: HadStable(s.graph, n);
    if r.conflicting.Some? {
      ConflictsOnce(s.conflicts, s.graph.nodes, r.graph.nodes, r.node, r.conflicting.value,
                    r.graph.nodes[r.conflicting.value].identity.stable, d.stable);
    }
  }

  /** Conflicts are kept on nodes that carry a stable ID. */
  ghost predicate OnStableNodes(conflicts: map<NodeId, set<Text>>, nodes: map<NodeId, Node>) {
    forall n | n in conflicts :: n in nodes && nodes[n].identity.stable != EMPTY && conflicts[n] != {}
  }

  lemma ConflictsOnce(
    conflicts: map<NodeId, set<Text>>, before: map<NodeId, Node>, after: map<NodeId, Node>, a: NodeId, b: NodeId,
    t: Text, u: Text)
    requires OnStableNodes(conflicts, before)
    requires forall n | n in before && before[n].identity.stable != EMPTY ::
      n in after && after[n].identity.stable != EMPTY
    requires a in after && after[a].identity.stable != EMPTY
    requires b in before && before[b].identity.stable != EMPTY
    ensures OnStableNodes(conflicts, after)
    ensures OnStableNodes(AddConflict(AddConflict(conflicts, a, t), b, u), after)
  {
  }

  /** Every device has an entry, entries are for devices, and an entry is where the device was placed. */
  ghost predicate EntriesFor(canonical: map<Text, NodeId>, g: Graph, devices: seq<Device>) {
    && (forall t | t in canonical :: exists d | d in devices :: d.stable == t)
    && (forall d | d in devices :: d.stable in canonical && Placed(g, d.stable, canonical[d.stable]))
  }

  lemma EntriesOnce(canonical: map<Text, NodeId>, g: Graph, h: Graph, devices: seq<Device>, d: Device, node: NodeId)
    requires EntriesFor(canonical, g, devices)
    requires AddsOnly(g, h, d.stable) && Placed(h, d.stable, node)
    ensures EntriesFor(canonical[d.stable := node], h, devices + [d])
  {
    var grown := canonical[d.stable := node];
    forall t | t in grown ensures exists e | e in devices + [d] :: e.stable == t {
      if t == d.stable {
        assert d in devices + [d];
      } else {
        var e :| e in devices && e.stable == t;
        assert e in devices + [d];
      }
    }
    forall e | e in devices + [d] ensures e.stable in grown && Placed(h, e.stable, grown[e.stable]) {
      if e.stable != d.stable {
        assert e in devices;
        StaysPlaced(g, h, d.stable, e.stable, canonical[e.stable]);
      }
    }
  }

  lemma StaysPlaced(g: Graph, h: Graph, added: Text, stable: Text, node: NodeId)
    requires AddsOnly(g, h, added) && Placed(g, stable, node) && stable != added
    ensures Placed(h, stable, node)
  {
  }

  lemma ConflictHasStable(g: Graph, cfg: Config, d: Device, keyShared: bool, at: Time, o: Oracle)
    requires Sound(g)
    ensures var r := ResolveDevice(g, cfg, d, keyShared, at, o);
      r.conflicting.Some? ==> r.conflicting.value in g.nodes && g.nodes[r.conflicting.value].identity.stable != EMPTY
  {
  }

  lemma {:induction false} SyncMaps(g: Graph, cfg: Config, all: seq<Device>, devices: seq<Device>, at: Time, o: Oracle)
    requires Sound(g) && Fair(o) && Guarded(all)
    requires forall i | 0 <= i < |devices| :: devices[i].stable != EMPTY && devices[i] in all
    ensures Mapped(g, SyncDevices(g, cfg, all, devices, at, o), devices)
  {
    if devices != [] {
      var before, last := devices[..|devices| - 1], devices[|devices| - 1];
      assert before + [last] == devices;
      SyncMaps(g, cfg, all, before, at, o);
      assert !ZeroByKey(all, last);
      SyncDeviceMaps(g, SyncDevices(g, cfg, all, before, at, o),
                     cfg, before, last, KeyShared(all, last.nodeKey), at, o);
    }
  }

  /** What a snapshot should leave behind. Every device is mapped to a live node although merges made on the
      way rewrite only the old directory; a node that disappears carried no stable ID; two devices share a
      node exactly when they did before; and the invariant holds. */
  ghost predicate NeverConflates(g: Graph, h: Graph, devices: seq<Device>) {
    && Sound(h) && h.directory.Some?
    && (forall d | d in devices ::
          d.stable in h.directory.value.canonical && h.directory.value.canonical[d.stable] in h.nodes)
    && (forall n | n in g.nodes && n !in h.nodes :: g.nodes[n].identity.stable == EMPTY)
    && (forall d, e | d in devices && e in devices && d.stable != e.stable ::
          h.directory.value.canonical[d.stable] == h.directory.value.canonical[e.stable] <==>
          (StableAlias(d.stable) in g.aliases && StableAlias(e.stable) in g.aliases
           && g.aliases[StableAlias(d.stable)] == g.aliases[StableAlias(e.stable)]))
  }

  /** The directory never conflates devices, whatever the graph and whatever the random choices. */
  lemma DirectoryNeverConflates(g: Graph, cfg: Config, devices: seq<Device>, at: Time, o: Oracle)
    requires Sound(g) && Fair(o) && Normalised(devices) && Guarded(devices)
    ensures NeverConflates(g, ApplyDirectory(g, cfg, devices, at, o), devices)
  {
    SyncMaps(g, cfg, devices, devices, at, o);
    var s := SyncDevices(g, cfg, devices, devices, at, o);
    var h := ApplyDirectory(g, cfg, devices, at, o);
    MappedIsSound(g, s, devices);
    MappedKeepsNodes(g, s, devices);
    MappedTogether(g, s, devices);
  }

  lemma MappedKeepsNodes(g: Graph, s: Sync, devices: seq<Device>)
    requires Mapped(g, s, devices)
    ensures forall n | n in g.nodes && n !in s.graph.nodes :: g.nodes[n].identity.stable == EMPTY
  {
    forall n | n in g.nodes && n !in s.graph.nodes ensures g.nodes[n].identity.stable == EMPTY {
      assert !HadStable(s.graph, n);
    }
  }

  /** Two devices are mapped to one node exactly when their stable IDs named one before. */
  lemma MappedTogether(g: Graph, s: Sync, devices: seq<Device>)
    requires Mapped(g, s, devices) && forall d | d in devices :: d.stable != EMPTY
    ensures forall d | d in devices :: d.stable in s.canonical && s.canonical[d.stable] in s.graph.nodes
    ensures forall d, e | d in devices && e in devices && d.stable != e.stable ::
      s.canonical[d.stable] == s.canonical[e.stable] <==>
      (StableAlias(d.stable) in g.aliases && StableAlias(e.stable) in g.aliases
       && g.aliases[StableAlias(d.stable)] == g.aliases[StableAlias(e.stable)])
  {
  }

  lemma MappedIsSound(g: Graph, s: Sync, devices: seq<Device>)
    requires Mapped(g, s, devices)
    ensures Sound(s.graph.(directory := Some(Directory(devices, s.canonical,
      WithRivals(devices, s.canonical, s.conflicts)))))
  {
    var h := s.graph.(directory := Some(Directory(devices, s.canonical,
      WithRivals(devices, s.canonical, s.conflicts))));
    assert NamesOnly(s.canonical, s.graph.nodes.Keys) by {
      forall t | t in s.canonical ensures s.canonical[t] in s.graph.nodes {
        var d :| d in devices && d.stable == t;
      }
    }
    assert Anchored(h) by {
      assert h.directory.value.conflicts.Keys <= s.conflicts.Keys + s.canonical.Values;
      forall n | n in s.canonical.Values ensures n in s.graph.nodes {
        var t :| t in s.canonical && s.canonical[t] == n;
      }
    }
  }

  /** The stable ID "0" passes snapshot normalisation but is never an alias. A device first met without a
      node key is found again exactly when its stable ID can be one; otherwise every synchronisation
      hands it a new node. */
  lemma FoundAgainIffNamed(g: Graph, cfg: Config, d: Device, at: Time, o: Oracle, later: Time, p: Oracle)
    requires Sound(g) && Fair(o) && Fair(p) && d.stable != EMPTY && d.nodeKey == EMPTY
      && StableAlias(d.stable) !in g.aliases
    ensures var r := ResolveDevice(g, cfg, d, false, at, o);
      && r.node !in Known(g)
      && (ResolveDevice(r.graph, cfg, d, false, later, p).node == r.node <==> Named(d.stable))
  {
    AllocatedNode(g, cfg, d.stable, at, o);
    var h := ResolveDevice(g, cfg, d, false, at, o).graph;
    assert o.newId(g) !in Known(g);
    if !Named(d.stable) {
      AllocatedNode(h, cfg, d.stable, later, p);
      assert p.newId(h) !in Known(h);
    }
  }

  // ---------------------------------------------------------------------------------------------
  // Exactly when
  // ---------------------------------------------------------------------------------------------

  /** Two nodes that both carry the stable ID "0": it is bound to one, a node key to the other. */
  function Twins(key: Text): Graph {
    EMPTY_GRAPH.(
      nodes := map[1 := NewNode(OnlyStable(ZERO), Resolved, NEVER), 2 := NewNode(OnlyStable(ZERO), Resolved, NEVER)],
      aliases := map[StableAlias(ZERO) := 1, NodeKeyAlias(key) := 2])
  }

  /** Before the device with the key has its turn both are there, afterwards one was absorbed for good. */
  ghost predicate Waiting(g: Graph, key: Text, met: bool) {
    && (forall a: Alias | a.NodeKeyAlias? && a in g.aliases :: a.text == key)
    && if met then 2 !in g.nodes && 2 in g.redirects
       else
         && 1 in g.nodes && 2 in g.nodes && g.nodes[2].identity.stable == ZERO
         && StableAlias(ZERO) in g.aliases && g.aliases[StableAlias(ZERO)] == 1
         && NodeKeyAlias(key) in g.aliases && g.aliases[NodeKeyAlias(key)] == 2
  }

  lemma OthersWait(g: Graph, cfg: Config, d: Device, keyShared: bool, key: Text, met: bool, at: Time, o: Oracle)
    requires Fair(o) && Waiting(g, key, met) && (d.nodeKey != key || keyShared) && d.stable != EMPTY
    ensures Waiting(ResolveDevice(g, cfg, d, keyShared, at, o).graph, key, met)
  {
    assert d.nodeKey != EMPTY && !keyShared ==> NodeKeyAlias(d.nodeKey) !in g.aliases;
    if StableAlias(d.stable) !in g.aliases {
      AllocatedNode(g, cfg, d.stable, at, o);
      assert o.newId(g) !in Known(g);
      var r := Resolve(g, cfg, OnlyStable(d.stable), at, o);
      WaitsWith(g, r.graph, d.stable, at, r.node, key, met);
    }
  }

  lemma WaitsWith(g: Graph, h: Graph, stable: Text, at: Time, node: NodeId, key: Text, met: bool)
    requires Waiting(g, key, met) && node !in Known(g) && StableAlias(stable) !in g.aliases
    requires h.aliases == (if Named(stable) then g.aliases[StableAlias(stable) := node] else g.aliases)
    requires h.nodes == g.nodes[node := NewNode(OnlyStable(stable), StatusOf(OnlyStable(stable)), at)]
    requires h.redirects == g.redirects
    ensures Waiting(Unseen(h, node), key, met)
  {
  }

  lemma KeyMeets(g: Graph, cfg: Config, d: Device, key: Text, at: Time, o: Oracle)
    requires Waiting(g, key, false) && d == Device(ZERO, key) && key != EMPTY
    ensures Waiting(ResolveDevice(g, cfg, d, false, at, o).graph, key, true)
  {
    assert ResolveDevice(g, cfg, d, false, at, o).graph == Merge(g, 1, 2, o);
  }

  lemma {:induction false} TwinsMeet(
    cfg: Config, all: seq<Device>, devices: seq<Device>, d: Device, at: Time, o: Oracle)
    requires Fair(o) && Normalised(all) && ZeroByKey(all, d) && devices <= all
    ensures Waiting(SyncDevices(Twins(d.nodeKey), cfg, all, devices, at, o).graph, d.nodeKey, d in devices)
  {
    if devices != [] {
      var before, last := devices[..|devices| - 1], devices[|devices| - 1];
      TwinsMeet(cfg, all, before, d, at, o);
      var g := SyncDevices(Twins(d.nodeKey), cfg, all, before, at, o).graph;
      assert last == all[|devices| - 1] && before == all[..|devices| - 1];
      if last == d {
        assert d !in before;
        KeyMeets(g, cfg, d, d.nodeKey, at, o);
      } else {
        OthersAreNot(all, d, last);
        OthersWait(g, cfg, last, KeyShared(all, last.nodeKey), d.nodeKey, d in before, at, o);
      }
    }
  }

  lemma OthersAreNot(all: seq<Device>, d: Device, e: Device)
    requires Normalised(all) && ZeroByKey(all, d) && e in all && e != d
    ensures e.nodeKey != d.nodeKey && e.stable != EMPTY
  {
    var i :| 0 <= i < |all| && all[i] == d;
    var j :| 0 <= j < |all| && all[j] == e;
    assert i < j || j < i;
  }

  /** Whatever the graph, exactly when no device with the stable ID "0" comes with a node key of its own. */
  lemma NeverConflatesIff(cfg: Config, devices: seq<Device>, at: Time)
    requires Normalised(devices)
    ensures (forall g: Graph, o: Oracle | Sound(g) && Fair(o) ::
      NeverConflates(g, ApplyDirectory(g, cfg, devices, at, o), devices))
        <==> Guarded(devices)
  {
    if Guarded(devices) {
      forall g: Graph, o: Oracle | Sound(g) && Fair(o)
        ensures NeverConflates(g, ApplyDirectory(g, cfg, devices, at, o), devices)
      {
        DirectoryNeverConflates(g, cfg, devices, at, o);
      }
    } else {
      var d :| ZeroByKey(devices, d);
      FairOracleExists();
      var o: Oracle :| Fair(o);
      TwinsConflate(cfg, devices, d, at, o);
    }
  }

  lemma TwinsAreSound(key: Text)
    ensures Sound(Twins(key))
  {
  }

  lemma TwinsConflate(cfg: Config, devices: seq<Device>, d: Device, at: Time, o: Oracle)
    requires Fair(o) && Normalised(devices) && ZeroByKey(devices, d)
    ensures var g := Twins(d.nodeKey);
      Sound(g) && !NeverConflates(g, ApplyDirectory(g, cfg, devices, at, o), devices)
  {
    var g := Twins(d.nodeKey);
    TwinsAreSound(d.nodeKey);
    TwinsMeet(cfg, devices, devices, d, at, o);
    VanishedConflates(g, ApplyDirectory(g, cfg, devices, at, o), devices, 2);
  }

  // ---------------------------------------------------------------------------------------------
  // Such a graph is reached
  // ---------------------------------------------------------------------------------------------

  function OnlyKey(stable: Text, key: Text): NodeIdentity {
    NO_IDENTITY.(stable := stable, nodeKey := key)
  }

  /** Nodes `a` and `b` with a node key each, of which only `b` carries the stable ID "0". */
  ghost predicate TwoKeys(g: Graph, a: NodeId, b: NodeId, k1: Text, k2: Text) {
    && a != b && a in g.nodes && b in g.nodes
    && g.nodes[a].identity.stable == EMPTY && g.nodes[b].identity.stable == ZERO
    && g.aliases == map[NodeKeyAlias(k1) := a, NodeKeyAlias(k2) := b]
  }

  lemma KeyMatchesNothing(g: Graph, cfg: Config, stable: Text, key: Text, at: Time)
    requires Named(key) && NodeKeyAlias(key) !in g.aliases && !Named(stable)
    ensures var i := OnlyKey(stable, key);
      && StrongAliases(i) == [NodeKeyAlias(key)] && AddressAliases(i) == []
      && WithoutConflict(g, i) == i && Matches(g, cfg, i, at) == {}
  {
  }

  lemma KeyAllocates(g: Graph, cfg: Config, stable: Text, key: Text, at: Time, o: Oracle)
    requires Fair(o) && Named(key) && NodeKeyAlias(key) !in g.aliases && !Named(stable)
    ensures var r := Resolve(g, cfg, OnlyKey(stable, key), at, o);
      && r.node !in Known(g)
      && r.graph.aliases == g.aliases[NodeKeyAlias(key) := r.node]
      && r.graph.nodes == g.nodes[r.node := NewNode(OnlyKey(stable, key), StatusOf(OnlyKey(stable, key)), at)]
  {
    KeyMatchesNothing(g, cfg, stable, key, at);
    KeyBound(g, cfg, OnlyKey(stable, key), key, at, o);
    assert o.newId(g) !in Known(g);
  }

  lemma KeyBound(g: Graph, cfg: Config, i: NodeIdentity, key: Text, at: Time, o: Oracle)
    requires StrongAliases(i) == [NodeKeyAlias(key)] && AddressAliases(i) == []
    requires WithoutConflict(g, i) == i && Matches(g, cfg, i, at) == {}
    ensures var r := Resolve(g, cfg, i, at, o);
      && r.node == o.newId(g) && r.graph.aliases == g.aliases[NodeKeyAlias(key) := r.node]
      && r.graph.nodes == g.nodes[r.node := NewNode(i, StatusOf(i), at)]
  {
  }

  lemma OneDevice(g: Graph, cfg: Config, d: Device, at: Time, o: Oracle)
    requires d.nodeKey != EMPTY
    ensures var h, r := ApplyDirectory(g, cfg, [d], at, o), ResolveDevice(g, cfg, d, false, at, o).graph;
      h.nodes == r.nodes && h.aliases == r.aliases
  {
    var one := [d];
    assert one[..|one| - 1] == [] && !KeyShared(one, d.nodeKey);
    assert SyncDevices(g, cfg, one, one, at, o) == SyncDevice(Sync(g, map[], map[]), cfg, d, false, at, o);
  }

  lemma TwoIdentities(cfg: Config, k1: Text, k2: Text, at: Time, o: Oracle) returns (a: NodeId, b: NodeId)
    requires Fair(o) && Named(k1) && Named(k2) && k1 != k2
    ensures var first := Resolve(EMPTY_GRAPH, cfg, OnlyKey(EMPTY, k1), at, o).graph;
      TwoKeys(Resolve(first, cfg, OnlyKey(ZERO, k2), at, o).graph, a, b, k1, k2)
  {
    KeyAllocates(EMPTY_GRAPH, cfg, EMPTY, k1, at, o);
    var first := Resolve(EMPTY_GRAPH, cfg, OnlyKey(EMPTY, k1), at, o);
    KeyAllocates(first.graph, cfg, ZERO, k2, at, o);
    var second := Resolve(first.graph, cfg, OnlyKey(ZERO, k2), at, o);
    a, b := first.node, second.node;
    TwoKeysFrom(first.graph, second.graph, a, b, k1, k2, at);
  }

  /** Two identities resolved from nothing, a node key each and one of them with the stable ID "0", and a snapshot
      in which a device with that stable ID has the one key: from then on a snapshot in which it has the other
      key makes the node that carried the stable ID disappear. */
  lemma ConflationIsReached(cfg: Config, k1: Text, k2: Text, at: Time, o: Oracle)
    requires Fair(o) && Named(k1) && Named(k2) && k1 != k2
    ensures var first := Resolve(EMPTY_GRAPH, cfg, OnlyKey(EMPTY, k1), at, o).graph;
      var second := Resolve(first, cfg, OnlyKey(ZERO, k2), at, o).graph;
      var before := ApplyDirectory(second, cfg, [Device(ZERO, k1)], at, o);
      var after := ApplyDirectory(before, cfg, [Device(ZERO, k2)], at, o);
      Normalised([Device(ZERO, k2)]) && !NeverConflates(before, after, [Device(ZERO, k2)])
  {
    var a, b := TwoIdentities(cfg, k1, k2, at, o);
    var first := Resolve(EMPTY_GRAPH, cfg, OnlyKey(EMPTY, k1), at, o).graph;
    TwoKeysConflate(Resolve(first, cfg, OnlyKey(ZERO, k2), at, o).graph, cfg, a, b, k1, k2, at, o);
  }

  lemma TwoKeysFrom(g: Graph, h: Graph, a: NodeId, b: NodeId, k1: Text, k2: Text, at: Time)
    requires g.aliases == map[NodeKeyAlias(k1) := a] && k1 != k2 && b !in g.nodes
    requires g.nodes == map[a := NewNode(OnlyKey(EMPTY, k1), StatusOf(OnlyKey(EMPTY, k1)), at)]
    requires h.aliases == g.aliases[NodeKeyAlias(k2) := b]
    requires h.nodes == g.nodes[b := NewNode(OnlyKey(ZERO, k2), StatusOf(OnlyKey(ZERO, k2)), at)]
    ensures TwoKeys(h, a, b, k1, k2)
  {
  }

  lemma TwoKeysConflate(g: Graph, cfg: Config, a: NodeId, b: NodeId, k1: Text, k2: Text, at: Time, o: Oracle)
    requires TwoKeys(g, a, b, k1, k2) && k1 != k2 && k1 != EMPTY && k2 != EMPTY
    ensures var before := ApplyDirectory(g, cfg, [Device(ZERO, k1)], at, o);
      !NeverConflates(before, ApplyDirectory(before, cfg, [Device(ZERO, k2)], at, o), [Device(ZERO, k2)])
  {
    var before := ApplyDirectory(g, cfg, [Device(ZERO, k1)], at, o);
    OneDevice(g, cfg, Device(ZERO, k1), at, o);
    assert ResolveDevice(g, cfg, Device(ZERO, k1), false, at, o).graph == Adopt(g, a, ZERO);
    assert before.nodes[b] == g.nodes[b] && before.aliases == g.aliases[StableAlias(ZERO) := a];
    SecondKeyAbsorbs(before, cfg, a, b, k2, at, o);
  }

  lemma KeyMerges(g: Graph, cfg: Config, a: NodeId, b: NodeId, key: Text, at: Time, o: Oracle)
    requires a != b && a in g.nodes && b in g.nodes && g.nodes[b].identity.stable == ZERO && key != EMPTY
    requires StableAlias(ZERO) in g.aliases && g.aliases[StableAlias(ZERO)] == a
    requires NodeKeyAlias(key) in g.aliases && g.aliases[NodeKeyAlias(key)] == b
    ensures b !in ResolveDevice(g, cfg, Device(ZERO, key), false, at, o).graph.nodes
  {
    assert ResolveDevice(g, cfg, Device(ZERO, key), false, at, o).graph == Merge(g, a, b, o);
    MergedAliasesAndNodes(g, a, b, o);
  }

  lemma SecondKeyAbsorbs(g: Graph, cfg: Config, a: NodeId, b: NodeId, key: Text, at: Time, o: Oracle)
    requires a != b && a in g.nodes && b in g.nodes && g.nodes[b].identity.stable == ZERO && key != EMPTY
    requires StableAlias(ZERO) in g.aliases && g.aliases[StableAlias(ZERO)] == a
    requires NodeKeyAlias(key) in g.aliases && g.aliases[NodeKeyAlias(key)] == b
    ensures !NeverConflates(g, ApplyDirectory(g, cfg, [Device(ZERO, key)], at, o), [Device(ZERO, key)])
  {
    OneDevice(g, cfg, Device(ZERO, key), at, o);
    KeyMerges(g, cfg, a, b, key, at, o);
    VanishedConflates(g, ApplyDirectory(g, cfg, [Device(ZERO, key)], at, o), [Device(ZERO, key)], b);
  }

  lemma VanishedConflates(g: Graph, h: Graph, devices: seq<Device>, n: NodeId)
    requires n in g.nodes && n !in h.nodes && g.nodes[n].identity.stable != EMPTY
    ensures !NeverConflates(g, h, devices)
  {
  }
}
