/** What every aggregator operation keeps, and what merging means: the graph and its redirects are a
    partition of every node ID ever handed out, rebuilt edges are a quotient, and reporters and
    observers index each other. */
module Invariants {
  import opened Names
  import opened Canonical

  // ---------------------------------------------------------------------------------------------
  // The invariant
  // ---------------------------------------------------------------------------------------------

  /** Every ID ever handed out is live or one hop from a live node, and aliases name live nodes. */
  ghost predicate Rooted(g: Graph) {
    Compressed(g.nodes.Keys, g.redirects) && NamesOnly(g.aliases, g.nodes.Keys)
  }

  ghost predicate Compressed(live: set<NodeId>, redirects: map<NodeId, NodeId>) {
    && live !! redirects.Keys
    && (forall f | f in redirects :: redirects[f] in live)
  }

  ghost predicate NamesOnly<K(!new)>(names: map<K, NodeId>, live: set<NodeId>) {
    forall a | a in names :: names[a] in live
  }

  /** A reporter lists an observer exactly when that observer names it as its owner. */
  ghost predicate Indexed(g: Graph) {
    CrossIndexed(g.observers, g.reporters)
  }

  ghost predicate CrossIndexed(observers: map<NodeId, Observer>, reporters: map<ReporterId, Reporter>) {
    && (forall n | n in observers && observers[n].owner.Some? ::
          observers[n].owner.value in reporters && n in reporters[observers[n].owner.value].observers)
    && (forall r, n | r in reporters && n in reporters[r].observers ::
          n in observers && observers[n].owner == Some(r))
  }

  /** Observers and directory entries name live nodes, and every synchronised device has an entry. */
  ghost predicate Anchored(g: Graph) {
    && g.observers.Keys <= g.nodes.Keys
    && (g.directory.Some? ==>
          && NamesOnly(g.directory.value.canonical, g.nodes.Keys)
          && (forall d | d in g.directory.value.devices :: d.stable in g.directory.value.canonical)
          && ConflictsIn(g.directory.value.conflicts, g.nodes.Keys))
  }

  ghost predicate ConflictsIn(conflicts: map<NodeId, set<Text>>, live: set<NodeId>) {
    conflicts.Keys <= live && forall n | n in conflicts :: conflicts[n] != {}
  }

  /** A node's stable ID is an alias of that node, and a node with such an alias carries some stable ID. */
  ghost predicate Badged(nodes: map<NodeId, Node>, aliases: map<Alias, NodeId>) {
    && (forall n | n in nodes && Named(nodes[n].identity.stable) ::
          StableAlias(nodes[n].identity.stable) in aliases && aliases[StableAlias(nodes[n].identity.stable)] == n)
    && (forall a: Alias | a.StableAlias? && a in aliases && aliases[a] in nodes ::
          nodes[aliases[a]].identity.stable != EMPTY)
  }

  /** Edges are keyed by their own ends, smaller first, and observations by their observer. */
  ghost predicate WellKeyed(edges: map<EdgeKey, Edge>) {
    forall k | k in edges :: KeyedAs(k, edges[k])
  }

  ghost predicate KeyedAs(k: EdgeKey, e: Edge) {
    && EdgeKey(e.source, e.target) == k && k.source <= k.target
    && forall n | n in e.observations :: e.observations[n].observer == n
  }

  ghost predicate Sound(g: Graph) {
    Rooted(g) && Indexed(g) && Anchored(g) && Badged(g.nodes, g.aliases) && WellKeyed(g.edges)
  }

  lemma EmptyIsSound()
    ensures Sound(EMPTY_GRAPH)
  {
  }

  /** The parts of the graph that the invariant reads. */
  ghost predicate SameSkeleton(g: Graph, h: Graph) {
    && h.nodes.Keys == g.nodes.Keys
    && (forall n | n in g.nodes :: h.nodes[n].identity.stable == g.nodes[n].identity.stable)
    && h.redirects == g.redirects
    && h.aliases == g.aliases
    && h.observers.Keys == g.observers.Keys
    && (forall n | n in g.observers :: h.observers[n].owner == g.observers[n].owner)
    && h.reporters.Keys == g.reporters.Keys
    && (forall r | r in g.reporters :: h.reporters[r].observers == g.reporters[r].observers)
    && h.directory == g.directory
    && (WellKeyed(g.edges) ==> WellKeyed(h.edges))
  }

  // ---------------------------------------------------------------------------------------------
  // Merging keeps it
  // ---------------------------------------------------------------------------------------------

  /** What a merge did to the parts that the invariant reads. */
  ghost predicate Merged(g: Graph, h: Graph, keep: NodeId, remove: NodeId, merged: Option<Observer>) {
    && h.nodes.Keys == g.nodes.Keys - {remove}
    && h.redirects == RepointRedirects(g.redirects, keep, remove)
    && h.aliases == RepointAliases(g.aliases, keep, remove)
    && MergedOwners(g.observers, h.observers, keep, remove, merged)
    && MergedListings(g.reporters, h.reporters, keep, remove, merged)
    && h.directory == (if g.directory.None? then None else Some(RepointDirectory(g.directory.value, keep, remove)))
  }

  /** The surviving node has the merged observer, the absorbed one has none, the rest keep their owners. */
  ghost predicate MergedOwners(
    before: map<NodeId, Observer>, after: map<NodeId, Observer>, keep: NodeId, remove: NodeId, merged: Option<Observer>)
  {
    && remove !in after
    && (keep in after <==> merged.Some?)
    && (keep in after ==> after[keep].owner == merged.value.owner)
    && (forall n | n != keep && n != remove :: n in after <==> n in before)
    && (forall n | n in after && n != keep :: after[n].owner == before[n].owner)
  }

  /** The surviving node is listed by the merged observer's owner and by nobody else. */
  ghost predicate MergedListings(
    before: map<ReporterId, Reporter>, after: map<ReporterId, Reporter>, keep: NodeId, remove: NodeId,
    merged: Option<Observer>)
  {
    && after.Keys == before.Keys
    && (forall r, n | r in after && n != keep && n != remove :: n in after[r].observers <==> n in before[r].observers)
    && (forall r | r in after :: keep in after[r].observers <==> merged.Some? && merged.value.owner == Some(r))
    && (forall r | r in after :: remove !in after[r].observers)
  }

  lemma ObserversMerge(observers: map<NodeId, Observer>, keep: NodeId, remove: NodeId, newer: bool)
    requires keep != remove
    ensures var merged := MergedObserver(observers, keep, remove, newer);
      MergedOwners(observers, MergeObservers(observers, merged, keep, remove), keep, remove, merged)
  {
  }

  lemma ListingsMerge(reporters: map<ReporterId, Reporter>, merged: Option<Observer>, keep: NodeId, remove: NodeId)
    requires keep != remove
    ensures MergedListings(reporters, MergeOwners(reporters, merged, keep, remove), keep, remove, merged)
  {
  }

  lemma MergeIsMerged(g: Graph, keep: NodeId, remove: NodeId, o: Oracle)
    requires keep in g.nodes && remove in g.nodes && keep != remove
    ensures Merged(g, Merge(g, keep, remove, o), keep, remove,
                   MergedObserver(g.observers, keep, remove, g.nodes[remove].lastReport > g.nodes[keep].lastReport))
  {
    var newer := g.nodes[remove].lastReport > g.nodes[keep].lastReport;
    var merged := MergedObserver(g.observers, keep, remove, newer);
    var h := Merge(g, keep, remove, o);
    assert MergedOwners(g.observers, h.observers, keep, remove, merged) by {
      ObserversMerge(g.observers, keep, remove, newer);
    }
    assert MergedListings(g.reporters, h.reporters, keep, remove, merged) by {
      ListingsMerge(g.reporters, merged, keep, remove);
    }
    assert h.nodes.Keys == g.nodes.Keys - {remove};
  }

  lemma MergedKeepsRoots(g: Graph, h: Graph, keep: NodeId, remove: NodeId, merged: Option<Observer>)
    requires Rooted(g) && Merged(g, h, keep, remove, merged)
    requires keep in g.nodes && remove in g.nodes && keep != remove
    ensures Rooted(h) && Known(h) == Known(g)
    ensures forall n :: RootIn(h.redirects, n) == Repoint(RootIn(g.redirects, n), keep, remove)
  {
    RepointKeepsCompressed(g.nodes.Keys, g.redirects, keep, remove);
    RepointKeepsNames(g.aliases, g.nodes.Keys, keep, remove);
  }

  lemma MergedKeepsIndex(g: Graph, h: Graph, keep: NodeId, remove: NodeId, merged: Option<Observer>)
    requires Indexed(g) && Merged(g, h, keep, remove, merged)
    requires merged.Some? && merged.value.owner.Some? ==> merged.value.owner.value in g.reporters
    ensures Indexed(h)
  {
    forall n | n in h.observers && h.observers[n].owner.Some?
      ensures h.observers[n].owner.value in h.reporters && n in h.reporters[h.observers[n].owner.value].observers
    {
      if n != keep { assert n in g.observers && g.observers[n].owner == h.observers[n].owner; }
    }
    forall r, n | r in h.reporters && n in h.reporters[r].observers
      ensures n in h.observers && h.observers[n].owner == Some(r)
    {
      if n != keep { assert r in g.reporters && n in g.reporters[r].observers; }
    }
  }

  lemma MergedKeepsAnchors(g: Graph, h: Graph, keep: NodeId, remove: NodeId, merged: Option<Observer>)
    requires Anchored(g) && Merged(g, h, keep, remove, merged)
    requires keep in g.nodes && keep != remove
    ensures Anchored(h)
  {
    if g.directory.Some? {
      RepointKeepsDirectory(g.directory.value, g.nodes.Keys, keep, remove);
    }
  }

  lemma MergedObserverOwner(g: Graph, keep: NodeId, remove: NodeId, newer: bool)
    requires Indexed(g)
    ensures var merged := MergedObserver(g.observers, keep, remove, newer);
      merged.Some? && merged.value.owner.Some? ==> merged.value.owner.value in g.reporters
  {
  }

  /** mergeNodesLocked keeps the invariant, forgets no ID, and moves exactly the absorbed node's IDs. */
  lemma MergeKeepsSound(g: Graph, keep: NodeId, remove: NodeId, o: Oracle)
    requires Sound(g)
    ensures var h := Merge(g, keep, remove, o);
      && Sound(h)
      && Known(h) == Known(g)
      && h.reporters.Keys == g.reporters.Keys
      && (keep in g.nodes && remove in g.nodes ==>
            forall n :: RootIn(h.redirects, n) == Repoint(RootIn(g.redirects, n), keep, remove))
  {
    if keep in g.nodes && remove in g.nodes && keep != remove {
      var newer := g.nodes[remove].lastReport > g.nodes[keep].lastReport;
      var merged := MergedObserver(g.observers, keep, remove, newer);
      var h := Merge(g, keep, remove, o);
      MergeIsMerged(g, keep, remove, o);
      MergedObserverOwner(g, keep, remove, newer);
      MergedKeepsRoots(g, h, keep, remove, merged);
      MergedKeepsIndex(g, h, keep, remove, merged);
      MergedKeepsAnchors(g, h, keep, remove, merged);
      MergeKeepsBadges(g.nodes, g.aliases, keep, remove);
      RebuildKeepsKeys(g.edges, o.edgeOrder(g.edges), keep, remove, o);
    }
  }

  lemma {:induction false} RebuildKeepsKeys(
    edges: map<EdgeKey, Edge>, order: seq<EdgeKey>, keep: NodeId, remove: NodeId, o: Oracle)
    requires WellKeyed(edges)
    ensures WellKeyed(RebuildEdges(edges, order, keep, remove, o))
  {
    if order != [] {
      var before, last := order[..|order| - 1], order[|order| - 1];
      RebuildKeepsKeys(edges, before, keep, remove, o);
      if last in edges {
        AddKeepsKeys(RebuildEdges(edges, before, keep, remove, o), last, edges[last], keep, remove, o);
      }
    }
  }

  lemma AddKeepsKeys(
    rebuilt: map<EdgeKey, Edge>, k: EdgeKey, edge: Edge, keep: NodeId, remove: NodeId, o: Oracle)
    requires WellKeyed(rebuilt) && KeyedAs(k, edge)
    ensures WellKeyed(AddEdge(rebuilt, edge, keep, remove, o))
  {
    var key := EdgeOf(Repoint(edge.source, keep, remove), Repoint(edge.target, keep, remove));
    FoldKeepsKey(key, EdgeIn(rebuilt, key), edge, o.observerOrder(edge), keep, remove);
  }

  lemma {:induction false} FoldKeepsKey(
    key: EdgeKey, current: Edge, edge: Edge, order: seq<NodeId>, keep: NodeId, remove: NodeId)
    requires KeyedAs(key, current)
    requires forall n | n in edge.observations :: edge.observations[n].observer == n
    ensures KeyedAs(key, FoldEdge(current, edge, order, keep, remove))
  {
    if order != [] {
      FoldKeepsKey(key, current, edge, order[..|order| - 1], keep, remove);
    }
  }

  lemma MergeKeepsBadges(nodes: map<NodeId, Node>, aliases: map<Alias, NodeId>, keep: NodeId, remove: NodeId)
    requires Badged(nodes, aliases) && NamesOnly(aliases, nodes.Keys)
    requires keep in nodes && remove in nodes && keep != remove
    ensures Badged((nodes - {remove})[keep := MergeNode(nodes[keep], nodes[remove])],
      RepointAliases(aliases, keep, remove))
  {
  }

  lemma RepointKeepsCompressed(live: set<NodeId>, redirects: map<NodeId, NodeId>, keep: NodeId, remove: NodeId)
    requires Compressed(live, redirects) && keep in live && remove in live && keep != remove
    ensures var after := RepointRedirects(redirects, keep, remove);
      && Compressed(live - {remove}, after)
      && after.Keys == redirects.Keys + {remove}
      && (forall n :: RootIn(after, n) == Repoint(RootIn(redirects, n), keep, remove))
  {
  }

  lemma RepointKeepsNames(names: map<Alias, NodeId>, live: set<NodeId>, keep: NodeId, remove: NodeId)
    requires NamesOnly(names, live) && keep in live && keep != remove
    ensures NamesOnly(RepointAliases(names, keep, remove), live - {remove})
  {
  }

  lemma RepointKeepsDirectory(d: Directory, live: set<NodeId>, keep: NodeId, remove: NodeId)
    requires NamesOnly(d.canonical, live) && ConflictsIn(d.conflicts, live) && keep in live && keep != remove
    ensures var e := RepointDirectory(d, keep, remove);
      && e.devices == d.devices
      && e.canonical.Keys == d.canonical.Keys
      && NamesOnly(e.canonical, live - {remove})
      && ConflictsIn(e.conflicts, live - {remove})
  {
  }

  lemma {:induction false} MergeAllKeepsSound(g: Graph, keep: NodeId, others: seq<NodeId>, o: Oracle)
    requires Sound(g) && keep in g.nodes && keep !in others
    ensures var h := MergeAll(g, keep, others, o);
      Sound(h) && keep in h.nodes && h.reporters.Keys == g.reporters.Keys && Known(h) == Known(g)
  {
    if others != [] {
      MergeAllKeepsSound(g, keep, others[..|others| - 1], o);
      var h := MergeAll(g, keep, others[..|others| - 1], o);
      MergeKeepsSound(h, keep, others[|others| - 1], o);
    }
  }

  // ---------------------------------------------------------------------------------------------
  // Resolution keeps it
  // ---------------------------------------------------------------------------------------------

  /** Binding aliases to a live node, as every resolution ends, once its identity has been absorbed. */
  lemma BindKeepsSound(g: Graph, i: NodeIdentity, node: NodeId, at: Time)
    requires Rooted(g) && Indexed(g) && Anchored(g) && WellKeyed(g.edges) && node in g.nodes
    requires BadgedExcept(g, i, node)
    ensures var h := BindAliases(g, i, node, at);
      Sound(h) && h.nodes == g.nodes && h.reporters == g.reporters && h.redirects == g.redirects
  {
    var h := BindAliases(g, i, node, at);
    forall a | a in h.aliases ensures h.aliases[a] in h.nodes { }
    BindKeepsBadges(g, i, node, at);
  }

  /** Badged but for the stable ID that is about to be bound to `node`. */
  ghost predicate BadgedExcept(g: Graph, i: NodeIdentity, node: NodeId)
    requires node in g.nodes
  {
    && (i.stable != EMPTY ==> g.nodes[node].identity.stable == i.stable)
    && (Named(i.stable) && StableAlias(i.stable) in g.aliases ==> g.aliases[StableAlias(i.stable)] == node)
    && (forall n | n in g.nodes && Named(g.nodes[n].identity.stable) && !(n == node && i.stable != EMPTY) ::
          && StableAlias(g.nodes[n].identity.stable) in g.aliases
          && g.aliases[StableAlias(g.nodes[n].identity.stable)] == n)
    && (forall a: Alias | a.StableAlias? && a in g.aliases && g.aliases[a] in g.nodes ::
          g.nodes[g.aliases[a]].identity.stable != EMPTY)
  }

  lemma BindKeepsBadges(g: Graph, i: NodeIdentity, node: NodeId, at: Time)
    requires node in g.nodes && BadgedExcept(g, i, node)
    ensures Badged(g.nodes, BindAliases(g, i, node, at).aliases)
  {
    var after := BindAliases(g, i, node, at).aliases;
    forall t: Text ensures StableAlias(t) in StrongAliases(i) + AddressAliases(i) <==> (t == i.stable && Named(t)) { }
    forall t: Text ensures StableAlias(t) in after <==> StableAlias(t) in g.aliases || (t == i.stable && Named(t)) { }
    forall t: Text | StableAlias(t) in after
      ensures after[StableAlias(t)] == if t == i.stable && Named(t) then node else g.aliases[StableAlias(t)]
    {
    }
  }

  lemma GrowKeepsSound(g: Graph, id: NodeId, node: Node)
    requires Sound(g) && id !in Known(g) && node.identity.stable == EMPTY
    ensures var h := g.(nodes := g.nodes[id := node]);
      Sound(h) && Known(h) == Known(g) + {id}
  {
  }

  lemma SkeletonKeepsSound(g: Graph, h: Graph)
    requires Sound(g) && SameSkeleton(g, h)
    ensures Sound(h) && Known(h) == Known(g)
  {
  }

  /** What every resolution leaves: the answer is live, and new exactly when it says so. */
  ghost predicate SoundlyResolved(g: Graph, r: Resolution) {
    && Sound(r.graph)
    && r.node in r.graph.nodes
    && r.graph.reporters.Keys == g.reporters.Keys
    && Known(r.graph) == Known(g) + {r.node}
    && (r.created <==> r.node !in Known(g))
  }

  /** resolveIdentityLocked keeps the invariant and returns a live node, new exactly when it says so. */
  lemma ResolveKeepsSound(g: Graph, cfg: Config, identity: NodeIdentity, at: Time, o: Oracle)
    requires Sound(g) && Fair(o)
    ensures SoundlyResolved(g, Resolve(g, cfg, identity, at, o))
  {
    var i := WithoutConflict(g, identity);
    if Matches(g, cfg, i, at) == {} {
      ResolveToFresh(g, cfg, i, at, o);
    } else {
      ResolveToKnown(g, cfg, i, at, o);
    }
  }

  lemma ResolveToFresh(g: Graph, cfg: Config, i: NodeIdentity, at: Time, o: Oracle)
    requires Sound(g) && Fair(o) && Matches(g, cfg, i, at) == {}
    ensures var id := o.newId(g);
      var grown := g.(nodes := g.nodes[id := NewNode(i, StatusOf(i), at)]);
      SoundlyResolved(g, Resolution(BindAliases(grown, i, id, at), id, true, true))
  {
    var id := o.newId(g);
    var node := NewNode(i, StatusOf(i), at);
    NoMatchNoAlias(g, cfg, i, at);
    GrownIsReady(g, i, id, node);
    BindKeepsSound(g.(nodes := g.nodes[id := node]), i, id, at);
  }

  lemma GrownIsReady(g: Graph, i: NodeIdentity, id: NodeId, node: Node)
    requires Sound(g) && id !in Known(g) && node.identity.stable == i.stable
    requires Named(i.stable) ==> StableAlias(i.stable) !in g.aliases
    ensures var h := g.(nodes := g.nodes[id := node]);
      && Rooted(h) && Indexed(h) && Anchored(h) && WellKeyed(h.edges) && BadgedExcept(h, i, id)
      && Known(h) == Known(g) + {id}
  {
  }

  lemma ResolveToKnown(g: Graph, cfg: Config, i: NodeIdentity, at: Time, o: Oracle)
    requires Sound(g) && Matches(g, cfg, i, at) != {}
    ensures var keep := Survivor(g, i, Matches(g, cfg, i, at));
      var others := Ascending(Matches(g, cfg, i, at) - {keep});
      var merged := AbsorbIdentity(MergeAll(g, keep, others, o), keep, i);
      SoundlyResolved(g, Resolution(BindAliases(merged, i, keep, at), keep, false, others != []))
  {
    var keep := Survivor(g, i, Matches(g, cfg, i, at));
    var others := Ascending(Matches(g, cfg, i, at) - {keep});
    MatchesAreLive(g, cfg, i, at);
    MergeAllKeepsSound(g, keep, others, o);
    SurvivorKeepsAlias(g, cfg, i, at, o);
    AbsorbThenBind(MergeAll(g, keep, others, o), i, keep, at);
  }

  lemma NoMatchNoAlias(g: Graph, cfg: Config, i: NodeIdentity, at: Time)
    requires Matches(g, cfg, i, at) == {}
    ensures Named(i.stable) ==> StableAlias(i.stable) !in g.aliases
  {
    assert Named(i.stable) ==> StableAlias(i.stable) in StrongAliases(i);
    assert forall a | a in StrongAliases(i) && a in g.aliases :: g.aliases[a] in Matches(g, cfg, i, at);
  }

  /** The survivor is the node that the stable ID names, and merging into it does not change that. */
  lemma SurvivorKeepsAlias(g: Graph, cfg: Config, i: NodeIdentity, at: Time, o: Oracle)
    requires Sound(g) && Matches(g, cfg, i, at) != {}
    ensures var keep := Survivor(g, i, Matches(g, cfg, i, at));
      var merged := MergeAll(g, keep, Ascending(Matches(g, cfg, i, at) - {keep}), o);
      Named(i.stable) && StableAlias(i.stable) in merged.aliases ==> merged.aliases[StableAlias(i.stable)] == keep
  {
    var keep := Survivor(g, i, Matches(g, cfg, i, at));
    var others := Ascending(Matches(g, cfg, i, at) - {keep});
    MatchesAreLive(g, cfg, i, at);
    MergeAllKeepsAliases(g, keep, others, o);
  }

  lemma {:induction false} MergeAllKeepsAliases(g: Graph, keep: NodeId, others: seq<NodeId>, o: Oracle)
    requires keep !in others
    ensures var h := MergeAll(g, keep, others, o);
      && h.aliases.Keys == g.aliases.Keys
      && (forall a | a in g.aliases && g.aliases[a] == keep :: h.aliases[a] == keep)
  {
    if others != [] {
      var before, last := others[..|others| - 1], others[|others| - 1];
      MergeAllKeepsAliases(g, keep, before, o);
      MergeKeepsAlias(MergeAll(g, keep, before, o), keep, last, o);
    }
  }

  lemma MergeKeepsAlias(g: Graph, keep: NodeId, remove: NodeId, o: Oracle)
    requires keep != remove
    ensures var h := Merge(g, keep, remove, o);
      && h.aliases.Keys == g.aliases.Keys
      && (forall a | a in g.aliases && g.aliases[a] == keep :: h.aliases[a] == keep)
  {
  }

  lemma AbsorbThenBind(g: Graph, i: NodeIdentity, node: NodeId, at: Time)
    requires Sound(g) && node in g.nodes
    requires Named(i.stable) && StableAlias(i.stable) in g.aliases ==> g.aliases[StableAlias(i.stable)] == node
    ensures var h := BindAliases(AbsorbIdentity(g, node, i), i, node, at);
      Sound(h) && h.nodes.Keys == g.nodes.Keys && h.reporters == g.reporters && h.redirects == g.redirects
  {
    var absorbed := AbsorbIdentity(g, node, i);
    assert absorbed.nodes.Keys == g.nodes.Keys;
    BindKeepsSound(absorbed, i, node, at);
  }

  lemma MatchesAreLive(g: Graph, cfg: Config, i: NodeIdentity, at: Time)
    requires Rooted(g)
    ensures Matches(g, cfg, i, at) <= g.nodes.Keys
    ensures Matches(g, cfg, i, at) != {} ==> Survivor(g, i, Matches(g, cfg, i, at)) in g.nodes
  {
  }

  // ---------------------------------------------------------------------------------------------
  // Ownership
  // ---------------------------------------------------------------------------------------------

  lemma ClaimKeepsSound(g: Graph, reporter: ReporterId, node: NodeId)
    requires Sound(g) && node in g.nodes && reporter in g.reporters
    ensures var h := Claim(g, reporter, node);
      && Sound(h)
      && reporter in h.reporters
      && h.observers[node].owner == Some(reporter)
      && h.nodes == g.nodes && h.redirects == g.redirects && h.aliases == g.aliases
      && (forall n | n in g.observers && n != node :: n in h.observers && h.observers[n].owner == g.observers[n].owner)
  {
  }

  lemma WithdrawKeepsSound(g: Graph, reporter: ReporterId, node: NodeId, at: Time)
    requires Sound(g)
    ensures var h := Withdraw(g, reporter, node, at);
      && Sound(h)
      && h.reporters.Keys == g.reporters.Keys
      && !(node in h.observers && h.observers[node].owner == Some(reporter))
      && (forall n | n in g.observers && n != node :: n in h.observers && h.observers[n] == g.observers[n])
  {
    if node in g.observers && g.observers[node].owner == Some(reporter) && reporter in g.reporters {
      DisownKeepsIndex(g.observers, g.reporters, reporter, node,
        g.observers[node].(owner := None, withdrawnAt := at),
        g.reporters[reporter].(observers := g.reporters[reporter].observers - {node}));
    }
  }

  lemma DisownKeepsIndex(
    observers: map<NodeId, Observer>, reporters: map<ReporterId, Reporter>, reporter: ReporterId, node: NodeId,
    disowned: Observer, listing: Reporter)
    requires CrossIndexed(observers, reporters)
    requires node in observers && observers[node].owner == Some(reporter) && reporter in reporters
    requires disowned.owner == None && listing.observers == reporters[reporter].observers - {node}
    ensures CrossIndexed(observers[node := disowned], reporters[reporter := listing])
  {
  }

  lemma PruneKeepsSound(g: Graph, cfg: Config, now: Time)
    requires Sound(g)
    ensures Sound(Prune(g, cfg, now))
    ensures Prune(g, cfg, now).observers == g.observers
  {
  }

  // ---------------------------------------------------------------------------------------------
  // Merges are a partition
  // ---------------------------------------------------------------------------------------------

  /** The equivalence generated by a list of merges, grown one merge at a time. */
  ghost predicate Linked(merges: seq<(NodeId, NodeId)>, a: NodeId, b: NodeId) {
    if merges == [] then a == b
    else
      var before, last := merges[..|merges| - 1], merges[|merges| - 1];
      || Linked(before, a, b)
      || (Linked(before, a, last.0) && Linked(before, last.1, b))
      || (Linked(before, a, last.1) && Linked(before, last.0, b))
  }

  ghost predicate Equivalence(related: (NodeId, NodeId) -> bool) {
    && (forall a :: related(a, a))
    && (forall a, b | related(a, b) :: related(b, a))
    && (forall a, b, c | related(a, b) && related(b, c) :: related(a, c))
  }

  ghost function LinkedBy(merges: seq<(NodeId, NodeId)>): (related: (NodeId, NodeId) -> bool)
    ensures forall a: NodeId, b: NodeId :: related(a, b) <==> Linked(merges, a, b)
  {
    (a: NodeId, b: NodeId) => Linked(merges, a, b)
  }

  /** `Linked` is what it should be: an equivalence, relating every merged pair, and nothing that some
      equivalence relating those pairs does not relate. */
  lemma {:induction false} LinkedIsLeastEquivalence(merges: seq<(NodeId, NodeId)>, related: (NodeId, NodeId) -> bool)
    ensures Equivalence(LinkedBy(merges))
    ensures forall i | 0 <= i < |merges| :: Linked(merges, merges[i].0, merges[i].1)
    ensures Equivalence(related) && (forall i | 0 <= i < |merges| :: related(merges[i].0, merges[i].1)) ==>
              forall a, b | Linked(merges, a, b) :: related(a, b)
  {
    if merges != [] {
      var before, last := merges[..|merges| - 1], merges[|merges| - 1];
      assert before + [last] == merges;
      LinkedIsLeastEquivalence(before, related);
      LinkedStepIsEquivalence(before, last);
      forall i | 0 <= i < |merges| ensures Linked(merges, merges[i].0, merges[i].1) {
        if i < |merges| - 1 {
          assert merges[i] == before[i];
        } else {
          assert LinkedBy(before)(last.0, last.0) && LinkedBy(before)(last.1, last.1);
        }
      }
      if Equivalence(related) && (forall i | 0 <= i < |merges| :: related(merges[i].0, merges[i].1)) {
        forall i | 0 <= i < |before| ensures related(before[i].0, before[i].1) {
          assert before[i] == merges[i];
        }
        assert related(last.0, last.1) && related(last.1, last.0);
        forall a, b | Linked(merges, a, b) ensures related(a, b) {
          if !Linked(before, a, b) {
            var x, y := if Linked(before, a, last.0) && Linked(before, last.1, b) then last.0 else last.1,
                        if Linked(before, a, last.0) && Linked(before, last.1, b) then last.1 else last.0;
            assert related(a, x) && related(x, y) && related(y, b);
            assert related(a, y);
          }
        }
      }
    }
  }

  lemma LinkedStepIsEquivalence(before: seq<(NodeId, NodeId)>, last: (NodeId, NodeId))
    requires Equivalence(LinkedBy(before))
    ensures Equivalence(LinkedBy(before + [last]))
  {
    var prior := LinkedBy(before);
    var merges := before + [last];
    assert merges[..|merges| - 1] == before;
    forall a ensures LinkedBy(merges)(a, a) { assert prior(a, a); }
    forall a, b | LinkedBy(merges)(a, b) ensures LinkedBy(merges)(b, a) {
      assert prior(a, b) ==> prior(b, a);
      assert prior(a, last.0) ==> prior(last.0, a);
      assert prior(a, last.1) ==> prior(last.1, a);
      assert prior(last.1, b) ==> prior(b, last.1);
      assert prior(last.0, b) ==> prior(b, last.0);
    }
    forall a, b, c | LinkedBy(merges)(a, b) && LinkedBy(merges)(b, c) ensures LinkedBy(merges)(a, c) {
      StepTransitive(prior, last.0, last.1, a, b, c);
    }
  }

  ghost predicate Joined(prior: (NodeId, NodeId) -> bool, k: NodeId, r: NodeId, a: NodeId, b: NodeId) {
    prior(a, b) || (prior(a, k) && prior(r, b)) || (prior(a, r) && prior(k, b))
  }

  /** Adding one link to an equivalence leaves it transitive. */
  lemma StepTransitive(prior: (NodeId, NodeId) -> bool, k: NodeId, r: NodeId, a: NodeId, b: NodeId, c: NodeId)
    requires Equivalence(prior)
    requires Joined(prior, k, r, a, b) && Joined(prior, k, r, b, c)
    ensures Joined(prior, k, r, a, c)
  {
    assert prior(a, b) && prior(b, c) ==> prior(a, c);
    assert prior(a, b) && prior(b, k) ==> prior(a, k);
    assert prior(a, b) && prior(b, r) ==> prior(a, r);
    assert prior(r, b) && prior(b, c) ==> prior(r, c);
    assert prior(k, b) && prior(b, c) ==> prior(k, c);
    assert prior(r, b) && prior(b, k) ==> prior(r, k);
    assert prior(k, b) && prior(b, r) ==> prior(k, r);
    assert prior(r, k) <==> prior(k, r);
    assert prior(a, k) && prior(k, r) ==> prior(a, r);
    assert prior(a, r) && prior(r, k) ==> prior(a, k);
    assert prior(a, k) && prior(k, c) ==> prior(a, c);
    assert prior(a, r) && prior(r, c) ==> prior(a, c);
  }

  /** One identity step of the aggregator, with the oracle that answers it. */
  datatype Step =
    | Resolving(identity: NodeIdentity, at: Time, oracle: Oracle)
    | Merging(keep: NodeId, remove: NodeId, oracle: Oracle)

  function After(g: Graph, cfg: Config, step: Step): Graph {
    match step
    case Resolving(identity, at, o) => Resolve(g, cfg, identity, at, o).graph
    case Merging(keep, remove, o) => Merge(g, keep, remove, o)
  }

  function PairsWith(keep: NodeId, others: seq<NodeId>): (pairs: seq<(NodeId, NodeId)>) {
    if others == [] then [] else PairsWith(keep, others[..|others| - 1]) + [(keep, others[|others| - 1])]
  }

  /** The merges that a step carries out. */
  function MergesOf(g: Graph, cfg: Config, step: Step): seq<(NodeId, NodeId)> {
    match step
    case Resolving(identity, at, o) =>
      var i := WithoutConflict(g, identity);
      var matches := Matches(g, cfg, i, at);
      if matches == {} then [] else PairsWith(Survivor(g, i, matches), Ascending(matches - {Survivor(g, i, matches)}))
    case Merging(keep, remove, _) =>
      if keep in g.nodes && remove in g.nodes && keep != remove then [(keep, remove)] else []
  }

  function Run(g: Graph, cfg: Config, steps: seq<Step>): Graph {
    if steps == [] then g
    else After(Run(g, cfg, steps[..|steps| - 1]), cfg, steps[|steps| - 1])
  }

  function MergesIn(g: Graph, cfg: Config, steps: seq<Step>): seq<(NodeId, NodeId)> {
    if steps == [] then []
    else MergesIn(g, cfg, steps[..|steps| - 1]) +
         MergesOf(Run(g, cfg, steps[..|steps| - 1]), cfg, steps[|steps| - 1])
  }

  ghost predicate FairSteps(steps: seq<Step>) {
    forall s | s in steps :: Fair(s.oracle)
  }

  ghost predicate Represents(g: Graph, merges: seq<(NodeId, NodeId)>) {
    forall a, b :: Root(g, a) == Root(g, b) <==> Linked(merges, a, b)
  }

  lemma MergeRepresents(g: Graph, merges: seq<(NodeId, NodeId)>, keep: NodeId, remove: NodeId, o: Oracle)
    requires Sound(g) && Represents(g, merges)
    requires keep in g.nodes && remove in g.nodes
    ensures Represents(Merge(g, keep, remove, o), merges + [(keep, remove)])
  {
    MergeKeepsSound(g, keep, remove, o);
    RootsRepresent(g, Merge(g, keep, remove, o), merges, keep, remove);
  }

  lemma RootsRepresent(g: Graph, h: Graph, merges: seq<(NodeId, NodeId)>, keep: NodeId, remove: NodeId)
    requires Represents(g, merges)
    requires Root(g, keep) == keep && Root(g, remove) == remove
    requires forall n :: RootIn(h.redirects, n) == Repoint(RootIn(g.redirects, n), keep, remove)
    ensures Represents(h, merges + [(keep, remove)])
  {
    var grown := merges + [(keep, remove)];
    assert grown[..|grown| - 1] == merges;
    forall a, b ensures Root(h, a) == Root(h, b) <==> Linked(grown, a, b) {
      assert Linked(merges, a, keep) <==> Root(g, a) == keep;
      assert Linked(merges, a, remove) <==> Root(g, a) == remove;
      assert Linked(merges, remove, b) <==> Root(g, b) == remove;
      assert Linked(merges, keep, b) <==> Root(g, b) == keep;
    }
  }

  lemma MergeRemoves(g: Graph, keep: NodeId, remove: NodeId, o: Oracle)
    ensures g.nodes.Keys - {remove} <= Merge(g, keep, remove, o).nodes.Keys
  {
  }

  lemma {:induction false} MergeAllRemoves(g: Graph, keep: NodeId, others: seq<NodeId>, o: Oracle)
    ensures forall n | n in g.nodes && n !in others :: n in MergeAll(g, keep, others, o).nodes
  {
    if others != [] {
      var before, last := others[..|others| - 1], others[|others| - 1];
      assert others == before + [last];
      MergeAllRemoves(g, keep, before, o);
      MergeRemoves(MergeAll(g, keep, before, o), keep, last, o);
    }
  }

  lemma {:induction false} MergeAllRepresents(
    g: Graph, merges: seq<(NodeId, NodeId)>, keep: NodeId, others: seq<NodeId>, o: Oracle)
    requires Sound(g) && Represents(g, merges)
    requires keep in g.nodes && keep !in others
    requires forall i, j | 0 <= i < j < |others| :: others[i] != others[j]
    requires forall n | n in others :: n in g.nodes
    ensures Represents(MergeAll(g, keep, others, o), merges + PairsWith(keep, others))
  {
    if others == [] {
      assert merges + [] == merges;
    } else {
      var before, last := others[..|others| - 1], others[|others| - 1];
      assert others == before + [last];
      MergeAllRepresents(g, merges, keep, before, o);
      MergeAllKeepsSound(g, keep, before, o);
      MergeAllRemoves(g, keep, before, o);
      MergeRepresents(MergeAll(g, keep, before, o), merges + PairsWith(keep, before), keep, last, o);
      assert merges + PairsWith(keep, others) == (merges + PairsWith(keep, before)) + [(keep, last)];
    }
  }

  lemma StepRepresents(g: Graph, cfg: Config, merges: seq<(NodeId, NodeId)>, step: Step)
    requires Sound(g) && Represents(g, merges) && Fair(step.oracle)
    ensures Sound(After(g, cfg, step))
    ensures Represents(After(g, cfg, step), merges + MergesOf(g, cfg, step))
    ensures Known(g) <= Known(After(g, cfg, step))
  {
    match step
    case Resolving(identity, at, o) =>
      ResolveKeepsSound(g, cfg, identity, at, o);
      ResolveRepresents(g, cfg, merges, identity, at, o);
    case Merging(keep, remove, o) =>
      MergeKeepsSound(g, keep, remove, o);
      assert merges + [] == merges;
      if keep in g.nodes && remove in g.nodes && keep != remove {
        MergeRepresents(g, merges, keep, remove, o);
      }
  }

  /** Binding aliases and absorbing an identity leave redirects alone. */
  lemma ResolveRedirects(g: Graph, cfg: Config, identity: NodeIdentity, at: Time, o: Oracle)
    ensures var i := WithoutConflict(g, identity);
      var matches := Matches(g, cfg, i, at);
      Resolve(g, cfg, identity, at, o).graph.redirects ==
        (if matches == {} then g.redirects
         else MergeAll(g, Survivor(g, i, matches), Ascending(matches - {Survivor(g, i, matches)}), o).redirects)
  {
  }

  lemma ResolveRepresents(
    g: Graph, cfg: Config, merges: seq<(NodeId, NodeId)>, identity: NodeIdentity, at: Time, o: Oracle)
    requires Sound(g) && Represents(g, merges)
    ensures Represents(Resolve(g, cfg, identity, at, o).graph, merges + MergesOf(g, cfg, Resolving(identity, at, o)))
  {
    var i := WithoutConflict(g, identity);
    var matches := Matches(g, cfg, i, at);
    ResolveRedirects(g, cfg, identity, at, o);
    if matches == {} {
      assert merges + [] == merges;
      SameRedirects(g, Resolve(g, cfg, identity, at, o).graph, merges);
    } else {
      var keep := Survivor(g, i, matches);
      var others := Ascending(matches - {keep});
      MatchesAreLive(g, cfg, i, at);
      MergeAllRepresents(g, merges, keep, others, o);
      SameRedirects(MergeAll(g, keep, others, o), Resolve(g, cfg, identity, at, o).graph,
                    merges + PairsWith(keep, others));
    }
  }

  lemma SameRedirects(g: Graph, h: Graph, merges: seq<(NodeId, NodeId)>)
    requires Represents(g, merges) && h.redirects == g.redirects
    ensures Represents(h, merges)
  {
    forall a, b ensures Root(h, a) == Root(h, b) <==> Linked(merges, a, b) {
      assert Root(h, a) == Root(g, a) && Root(h, b) == Root(g, b);
    }
  }

  /** Over every run from the empty graph: two IDs have the same root exactly when the merges done so far
      link them, every ID ever known is live or one hop from a live node, and the invariant holds. */
  lemma {:induction false} RunsAreAPartition(cfg: Config, steps: seq<Step>)
    requires FairSteps(steps)
    ensures var g := Run(EMPTY_GRAPH, cfg, steps);
      && Sound(g)
      && Represents(g, MergesIn(EMPTY_GRAPH, cfg, steps))
      && (forall n | n in Known(g) :: Root(g, n) in g.nodes)
  {
    if steps != [] {
      var before, last := steps[..|steps| - 1], steps[|steps| - 1];
      RunsAreAPartition(cfg, before);
      assert last in steps;
      StepRepresents(Run(EMPTY_GRAPH, cfg, before), cfg, MergesIn(EMPTY_GRAPH, cfg, before), last);
    }
  }

  /** IDs are never forgotten along a run. */
  lemma {:induction false} KnownOnlyGrows(cfg: Config, steps: seq<Step>, n: nat)
    requires FairSteps(steps) && n <= |steps|
    ensures Known(Run(EMPTY_GRAPH, cfg, steps[..n])) <= Known(Run(EMPTY_GRAPH, cfg, steps))
  {
    if n == |steps| {
      assert steps[..n] == steps;
    } else {
      var before, last := steps[..|steps| - 1], steps[|steps| - 1];
      assert before[..n] == steps[..n];
      KnownOnlyGrows(cfg, before, n);
      RunsAreAPartition(cfg, before);
      assert last in steps;
      StepRepresents(Run(EMPTY_GRAPH, cfg, before), cfg, MergesIn(EMPTY_GRAPH, cfg, before), last);
    }
  }

  // ---------------------------------------------------------------------------------------------
  // Fair oracles exist
  // ---------------------------------------------------------------------------------------------

  ghost function Enumeration<T(!new)>(keys: set<T>): (order: seq<T>)
    ensures Enumerates(order, keys)
  {
    if keys == {} then []
    else
      var key :| key in keys;
      var rest := Enumeration(keys - {key});
      assert forall x :: x in [key] + rest <==> x == key || x in rest;
      [key] + rest
  }

  ghost function Unused(ids: set<NodeId>): (id: NodeId)
    ensures forall used | used in ids :: used < id
  {
    if ids == {} then 0
    else
      var some :| some in ids;
      var rest := Unused(ids - {some});
      assert forall used | used in ids :: used == some || used in ids - {some};
      if some < rest then rest else some + 1
  }

  /** Statements about fair oracles are about something: fresh IDs can be drawn and maps can be walked. */
  lemma FairOracleExists()
    ensures exists o: Oracle :: Fair(o)
  {
    var o := Oracle(
      (g: Graph) => Unused(Known(g)),
      (edges: map<EdgeKey, Edge>) => Enumeration(edges.Keys),
      (edge: Edge) => Enumeration(edge.observations.Keys),
      (scopes: map<ScopeKey, RelayScope>) => Enumeration(scopes.Keys),
      (sessions: map<Text, RelaySession>) => Enumeration(sessions.Keys),
      (g: Graph) => [],
      (g: Graph) => g.scopes,
      (g: Graph) => (0, 0));
    assert Fair(o);
  }
}
