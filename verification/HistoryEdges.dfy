/** The map from physical to logical edges (internal/store/history_edge_map.go): recorded edge IDs outlive
    the nodes they name, so each is mapped to the edge between the nodes that now stand for its ends. */
module HistoryEdges {
  import opened Names
  import opened Canonical
  import opened Invariants
  import opened Redirects
  import opened Traffic
  import History

  /** Where a physical edge belongs now; an edge whose ends became one node belongs nowhere. */
  function MappingOf(redirects: map<NodeId, NodeId>, p: EdgeKey): Option<Mapping> {
    var source, target := RootIn(redirects, p.source), RootIn(redirects, p.target);
    if source == target then None else Some(Mapping(EdgeOf(source, target), source != EdgeOf(source, target).source))
  }

  /** writeHistoryEdgeMapping: one row replaced or removed. */
  method WriteMapping(edges: EdgeMap, redirects: map<NodeId, NodeId>, p: EdgeKey, ghost live: set<NodeId>)
    returns (after: EdgeMap)
    requires Compressed(live, redirects)
    ensures after == match MappingOf(redirects, p)
                     case None => edges - {p}
                     case Some(m) => edges[p := m]
  {
    var source, s := ResolveNodeID(redirects, p.source);
    var target, t := ResolveNodeID(redirects, p.target);
    StoreFindsTheRoot(live, redirects, p.source, source, s);
    StoreFindsTheRoot(live, redirects, p.target, target, t);
    if source == target {
      return edges - {p};
    }
    var logical := EdgeOf(source, target);
    after := edges[p := Mapping(logical, source != logical.source)];
  }

  lemma StoreFindsTheRoot(live: set<NodeId>, redirects: map<NodeId, NodeId>, start: NodeId, id: NodeId, t: Trail)
    requires Compressed(live, redirects)
    requires Follows(redirects, start, t) && Stops(redirects, t)
    requires if t.stop !in redirects then id == t.stop else LeastOf(id, t.passed)
    ensures id == RootIn(redirects, start)
  {
    if start in redirects {
      var u := Trail([start], redirects[start]);
      assert u.stop in live;
      TrailIsUnique(redirects, start, t, u);
    } else {
      TrailIsUnique(redirects, start, t, Trail([], start));
    }
  }

  /** rebuildHistoryEdgeMap: all rows deleted and written again, edge by edge. */
  method Rebuild(physical: seq<EdgeKey>, redirects: map<NodeId, NodeId>, ghost live: set<NodeId>)
      returns (edges: EdgeMap)
    requires Compressed(live, redirects)
    ensures forall p :: p in edges <==> p in physical && MappingOf(redirects, p).Some?
    ensures forall p | p in edges :: Some(edges[p]) == MappingOf(redirects, p)
  {
    edges := map[];
    for i := 0 to |physical|
      invariant forall p :: p in edges <==> p in physical[..i] && MappingOf(redirects, p).Some?
      invariant forall p | p in edges :: Some(edges[p]) == MappingOf(redirects, p)
    {
      assert physical[..i + 1] == physical[..i] + [physical[i]];
      edges := WriteMapping(edges, redirects, physical[i], live);
    }
    assert physical[..|physical|] == physical;
  }

  /** The logical ends are the roots of the physical ends, swapped exactly when the mapping says so, so a flow
      keeps its sender. */
  lemma DirectionIsKept(redirects: map<NodeId, NodeId>, p: EdgeKey, m: Mapping)
    requires MappingOf(redirects, p) == Some(m)
    ensures m.logical.source == RootIn(redirects, if m.reversed then p.target else p.source)
    ensures m.logical.target == RootIn(redirects, if m.reversed then p.source else p.target)
    ensures m.logical.source < m.logical.target
  {
  }

  /** A logical edge is mapped to itself, so rolled-up hours, which are kept under logical IDs, are found. */
  lemma LogicalIsFixed(live: set<NodeId>, redirects: map<NodeId, NodeId>, p: EdgeKey, m: Mapping)
    requires Compressed(live, redirects) && MappingOf(redirects, p) == Some(m)
    ensures MappingOf(redirects, m.logical) == Some(Mapping(m.logical, false))
  {
    assert forall n :: RootIn(redirects, n) !in redirects;
  }

  /** So the mappings are such as the history relies on. */
  lemma MappingsSettle(live: set<NodeId>, redirects: map<NodeId, NodeId>)
    requires Compressed(live, redirects)
    ensures History.Settled((p: EdgeKey) => MappingOf(redirects, p))
  {
    forall p: EdgeKey | MappingOf(redirects, p).Some?
      ensures MappingOf(redirects, MappingOf(redirects, p).value.logical)
           == Some(Mapping(MappingOf(redirects, p).value.logical, false))
    {
      LogicalIsFixed(live, redirects, p, MappingOf(redirects, p).value);
    }
  }

  /** After a merge, the rebuilt map takes each physical edge to the image of the logical edge it had, turned
      once more if that image is turned. */
  lemma RebuildFollowsMerge(live: set<NodeId>, redirects: map<NodeId, NodeId>, keep: NodeId, remove: NodeId, p: EdgeKey)
    requires Compressed(live, redirects) && keep in live && remove in live && keep != remove
    ensures var after := RepointRedirects(redirects, keep, remove);
      match MappingOf(redirects, p)
      case None => MappingOf(after, p) == None
      case Some(m) =>
        match MappingOf(after, m.logical)
        case None => MappingOf(after, p) == None
        case Some(next) => MappingOf(after, p) == Some(Mapping(next.logical, m.reversed != next.reversed))
  {
    RepointKeepsCompressed(live, redirects, keep, remove);
    var after := RepointRedirects(redirects, keep, remove);
    forall n ensures RootIn(after, RootIn(redirects, n)) == RootIn(after, n) {
      assert RootIn(redirects, RootIn(redirects, n)) == RootIn(redirects, n);
    }
  }
}
