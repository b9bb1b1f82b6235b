/** Rebuilding the edges after a merge (rebuildEdgesLocked) is the quotient of the edge graph by the
    merged pair, whatever order the maps are walked in. */
module Quotient {
  import opened Names
  import opened Canonical
  import opened Invariants

  predicate Collapses(k: EdgeKey, keep: NodeId, remove: NodeId) {
    Repoint(k.source, keep, remove) == Repoint(k.target, keep, remove)
  }

  function Image(k: EdgeKey, keep: NodeId, remove: NodeId): EdgeKey {
    EdgeOf(Repoint(k.source, keep, remove), Repoint(k.target, keep, remove))
  }

  /** The old edges that end up under a given key. */
  ghost function Preimages(from: set<EdgeKey>, image: EdgeKey, keep: NodeId, remove: NodeId): set<EdgeKey> {
    set k | k in from && !Collapses(k, keep, remove) && Image(k, keep, remove) == image
  }

  datatype Carried = Carried(observer: NodeId, observation: Observation)

  ghost function Carry(n: NodeId, observation: Observation, keep: NodeId, remove: NodeId): Carried {
    Carried(Repoint(n, keep, remove), observation.(observer := Repoint(n, keep, remove)))
  }

  ghost function AllCarried(edges: map<EdgeKey, Edge>, from: set<EdgeKey>, keep: NodeId, remove: NodeId): set<Carried>
    requires from <= edges.Keys
  {
    set k, n | k in from && n in edges[k].observations :: Carry(n, edges[k].observations[n], keep, remove)
  }

  /** For each observer, one of the carried observations, none of which was received later. */
  ghost predicate Latest(kept: map<NodeId, Observation>, carried: set<Carried>) {
    && (forall n | n in kept :: Carried(n, kept[n]) in carried)
    && (forall c | c in carried :: c.observer in kept && c.observation.receivedAt <= kept[c.observer].receivedAt)
  }

  /** Activity is the maximum, and what is known of the path comes from an edge with that activity. */
  ghost predicate MostActive(r: Edge, edges: map<EdgeKey, Edge>, from: set<EdgeKey>, keep: NodeId, remove: NodeId)
    requires from <= edges.Keys
  {
    && (forall k | k in from :: edges[k].lastActive <= r.lastActive)
    && ((r.lastActive == NEVER && r.lastKnown == None) ||
        exists k | k in from :: edges[k].lastActive == r.lastActive &&
          r.lastKnown == (if edges[k].lastKnown.Some? then Some(RepointEvidence(edges[k].lastKnown.value, keep, remove))
            else None))
  }

  ghost predicate Gathers(r: Edge, image: EdgeKey, edges: map<EdgeKey, Edge>, from: set<EdgeKey>, keep: NodeId,
      remove: NodeId)
    requires from <= edges.Keys
  {
    && r.source == image.source && r.target == image.target
    && (r.system <==> exists k | k in from :: edges[k].system)
    && MostActive(r, edges, from, keep, remove)
    && Latest(r.observations, AllCarried(edges, from, keep, remove))
  }

  /** The rebuilt edges are exactly the images of the old ones that do not collapse. */
  ghost predicate QuotientOf(
    rebuilt: map<EdgeKey, Edge>, edges: map<EdgeKey, Edge>, from: set<EdgeKey>, keep: NodeId, remove: NodeId)
    requires from <= edges.Keys
  {
    && (forall image :: image in rebuilt <==> Preimages(from, image, keep, remove) != {})
    && (forall image | image in rebuilt ::
          Gathers(rebuilt[image], image, edges, Preimages(from, image, keep, remove), keep, remove))
  }

  // ---------------------------------------------------------------------------------------------
  // Observations
  // ---------------------------------------------------------------------------------------------

  ghost function Walked(observations: map<NodeId, Observation>, order: seq<NodeId>, keep: NodeId,
      remove: NodeId): set<Carried>
  {
    set n | n in order && n in observations :: Carry(n, observations[n], keep, remove)
  }

  lemma {:induction false} AddedObservationsAreLatest(
    into: map<NodeId, Observation>, carried: set<Carried>, from: map<NodeId, Observation>, order: seq<NodeId>,
    keep: NodeId, remove: NodeId)
    requires Latest(into, carried)
    requires forall n | n in from :: from[n].observer == n
    ensures Latest(AddObservations(into, from, order, keep, remove), carried + Walked(from, order, keep, remove))
  {
    if order == [] {
      assert Walked(from, order, keep, remove) == {};
      assert carried + {} == carried;
    } else {
      var before, last := order[..|order| - 1], order[|order| - 1];
      AddedObservationsAreLatest(into, carried, from, before, keep, remove);
      assert order == before + [last];
      if last in from {
        assert Walked(from, order, keep, remove)
          == Walked(from, before, keep, remove) + {Carry(last, from[last], keep, remove)};
        AddedObservationIsLatest(AddObservations(into, from, before, keep, remove),
                                 carried + Walked(from, before, keep, remove), last, from[last], keep, remove);
        assert carried + Walked(from, order, keep, remove) ==
               carried + Walked(from, before, keep, remove) + {Carry(last, from[last], keep, remove)};
      } else {
        assert Walked(from, order, keep, remove) == Walked(from, before, keep, remove);
      }
    }
  }

  lemma AddedObservationIsLatest(
    into: map<NodeId, Observation>, carried: set<Carried>, n: NodeId, observation: Observation,
    keep: NodeId, remove: NodeId)
    requires Latest(into, carried) && observation.observer == n
    ensures Latest(AddObservation(into, n, observation, keep, remove), carried + {Carry(n, observation, keep, remove)})
  {
    assert (if n == remove then observation.(observer := keep) else observation)
        == Carry(n, observation, keep, remove).observation;
  }

  // ---------------------------------------------------------------------------------------------
  // Edges
  // ---------------------------------------------------------------------------------------------

  lemma GatherOne(
    current: Edge, image: EdgeKey, edges: map<EdgeKey, Edge>, from: set<EdgeKey>, k: EdgeKey, order: seq<NodeId>,
    keep: NodeId, remove: NodeId, gathered: Edge)
    requires from <= edges.Keys && k in edges && WellKeyed(edges)
    requires Gathers(current, image, edges, from, keep, remove)
    requires Enumerates(order, edges[k].observations.Keys)
    requires gathered == FoldEdge(current, edges[k], order, keep, remove)
    ensures Gathers(gathered, image, edges, from + {k}, keep, remove)
  {
    AddedObservationsAreLatest(
      current.observations, AllCarried(edges, from, keep, remove), edges[k].observations, order, keep, remove);
    assert AllCarried(edges, from + {k}, keep, remove) ==
      AllCarried(edges, from, keep, remove) + Walked(edges[k].observations, order, keep, remove);
    assert k in from + {k};
    assert gathered.system <==> exists j | j in from + {k} :: edges[j].system;
    assert MostActive(gathered, edges, from + {k}, keep, remove) by {
      if edges[k].lastActive <= current.lastActive && !(current.lastActive == NEVER && current.lastKnown == None) {
        var j :| j in from && edges[j].lastActive == current.lastActive &&
          current.lastKnown ==
            (if edges[j].lastKnown.Some? then Some(RepointEvidence(edges[j].lastKnown.value, keep, remove)) else None);
        assert j in from + {k};
      }
    }
  }

  lemma PreimagesGrow(from: set<EdgeKey>, k: EdgeKey, image: EdgeKey, keep: NodeId, remove: NodeId)
    ensures Preimages(from + {k}, image, keep, remove) ==
      Preimages(from, image, keep, remove) +
      (if !Collapses(k, keep, remove) && Image(k, keep, remove) == image then {k} else {})
  {
  }

  lemma AddedEdgeAt(
    rebuilt: map<EdgeKey, Edge>, edges: map<EdgeKey, Edge>, k: EdgeKey, image: EdgeKey, keep: NodeId, remove: NodeId,
    o: Oracle)
    requires WellKeyed(edges) && k in edges
    ensures var after := AddEdge(rebuilt, edges[k], keep, remove, o);
      if !Collapses(k, keep, remove) && Image(k, keep, remove) == image
      then image in after &&
           after[image] == FoldEdge(EdgeIn(rebuilt, image), edges[k], o.observerOrder(edges[k]), keep, remove)
      else (image in after <==> image in rebuilt) && (image in after ==> after[image] == rebuilt[image])
  {
  }

  lemma AddedEdgeIsGathered(
    rebuilt: map<EdgeKey, Edge>, edges: map<EdgeKey, Edge>, from: set<EdgeKey>, k: EdgeKey,
    keep: NodeId, remove: NodeId, o: Oracle)
    requires Fair(o) && WellKeyed(edges) && from <= edges.Keys && k in edges
    requires QuotientOf(rebuilt, edges, from, keep, remove)
    ensures QuotientOf(AddEdge(rebuilt, edges[k], keep, remove, o), edges, from + {k}, keep, remove)
  {
    var after := AddEdge(rebuilt, edges[k], keep, remove, o);
    var order := o.observerOrder(edges[k]);
    assert Enumerates(order, edges[k].observations.Keys);
    forall image
      ensures image in after <==> Preimages(from + {k}, image, keep, remove) != {}
      ensures image in after ==>
        Gathers(after[image], image, edges, Preimages(from + {k}, image, keep, remove), keep, remove)
    {
      AddedEdgeAt(rebuilt, edges, k, image, keep, remove, o);
      GatherAt(rebuilt, after, edges, from, k, image, order, keep, remove);
    }
  }

  /** What the quotient says about one rebuilt edge. */
  ghost predicate GatheredAt(
    rebuilt: map<EdgeKey, Edge>, edges: map<EdgeKey, Edge>, from: set<EdgeKey>, image: EdgeKey, keep: NodeId,
    remove: NodeId)
    requires from <= edges.Keys
  {
    && (image in rebuilt <==> Preimages(from, image, keep, remove) != {})
    && (image in rebuilt ==>
          Gathers(rebuilt[image], image, edges, Preimages(from, image, keep, remove), keep, remove))
  }

  lemma GatherAt(
    rebuilt: map<EdgeKey, Edge>, after: map<EdgeKey, Edge>, edges: map<EdgeKey, Edge>, from: set<EdgeKey>, k: EdgeKey,
    image: EdgeKey, order: seq<NodeId>, keep: NodeId, remove: NodeId)
    requires WellKeyed(edges) && from <= edges.Keys && k in edges
    requires GatheredAt(rebuilt, edges, from, image, keep, remove)
    requires Enumerates(order, edges[k].observations.Keys)
    requires
      if !Collapses(k, keep, remove) && Image(k, keep, remove) == image
      then image in after && after[image] == FoldEdge(EdgeIn(rebuilt, image), edges[k], order, keep, remove)
      else (image in after <==> image in rebuilt) && (image in after ==> after[image] == rebuilt[image])
    ensures GatheredAt(after, edges, from + {k}, image, keep, remove)
  {
    var pre := Preimages(from, image, keep, remove);
    PreimagesGrow(from, k, image, keep, remove);
    if !Collapses(k, keep, remove) && Image(k, keep, remove) == image {
      var current := EdgeIn(rebuilt, image);
      if image !in rebuilt {
        NothingGathered(current, image, edges, pre, keep, remove);
      }
      GatherOne(current, image, edges, pre, k, order, keep, remove, after[image]);
    } else {
      assert Preimages(from + {k}, image, keep, remove) == pre;
    }
  }

  lemma NothingGathered(
    empty: Edge, image: EdgeKey, edges: map<EdgeKey, Edge>, from: set<EdgeKey>, keep: NodeId, remove: NodeId)
    requires from == {} && empty == Edge(image.source, image.target, false, NEVER, None, map[])
    ensures Gathers(empty, image, edges, from, keep, remove)
  {
    assert AllCarried(edges, from, keep, remove) == {};
  }

  /** Whatever order the edges and their observations are walked in, the result is the quotient. */
  lemma {:induction false} RebuiltIsQuotient(
    edges: map<EdgeKey, Edge>, order: seq<EdgeKey>, keep: NodeId, remove: NodeId, o: Oracle)
    requires Fair(o) && WellKeyed(edges)
    requires forall k | k in order :: k in edges
    ensures QuotientOf(RebuildEdges(edges, order, keep, remove, o), edges, (set k | k in order), keep, remove)
  {
    if order == [] {
      assert (set k | k in order) == {};
      forall image ensures Preimages({}, image, keep, remove) == {} { }
    } else {
      var before, last := order[..|order| - 1], order[|order| - 1];
      assert order == before + [last];
      RebuiltIsQuotient(edges, before, keep, remove, o);
      AddedEdgeIsGathered(RebuildEdges(edges, before, keep, remove, o), edges, (set k | k in before), last, keep,
        remove, o);
      assert (set k | k in order) == (set k | k in before) + {last};
    }
  }

  ghost predicate Between(edges: map<EdgeKey, Edge>, live: set<NodeId>) {
    WellKeyed(edges) && forall k | k in edges :: k.source in live && k.target in live
  }

  ghost predicate EdgesLive(g: Graph) {
    Between(g.edges, g.nodes.Keys)
  }

  lemma LatestKeepsKeys(kept: map<NodeId, Observation>, edges: map<EdgeKey, Edge>, from: set<EdgeKey>, keep: NodeId,
      remove: NodeId)
    requires from <= edges.Keys && Latest(kept, AllCarried(edges, from, keep, remove))
    ensures forall n | n in kept :: kept[n].observer == n && (n == remove ==> keep == remove)
  {
    forall n | n in kept ensures kept[n].observer == n && (n == remove ==> keep == remove) {
      assert Carried(n, kept[n]) in AllCarried(edges, from, keep, remove);
    }
  }

  lemma QuotientIsLive(
    after: map<EdgeKey, Edge>, edges: map<EdgeKey, Edge>, live: set<NodeId>, keep: NodeId, remove: NodeId)
    requires Between(edges, live) && keep in live && keep != remove
    requires QuotientOf(after, edges, edges.Keys, keep, remove)
    ensures Between(after, live - {remove})
  {
    forall image | image in after
      ensures EdgeKey(after[image].source, after[image].target) == image && image.source <= image.target
      ensures forall n | n in after[image].observations :: after[image].observations[n].observer == n
      ensures image.source in live - {remove} && image.target in live - {remove}
    {
      var pre := Preimages(edges.Keys, image, keep, remove);
      var k :| k in pre;
      LatestKeepsKeys(after[image].observations, edges, pre, keep, remove);
    }
  }

  /** A merge turns well-keyed edges between live nodes into well-keyed edges between live nodes, and the
      result is their quotient. */
  lemma MergeQuotientsEdges(g: Graph, keep: NodeId, remove: NodeId, o: Oracle)
    requires Fair(o) && EdgesLive(g)
    requires keep in g.nodes && remove in g.nodes && keep != remove
    ensures QuotientOf(Merge(g, keep, remove, o).edges, g.edges, g.edges.Keys, keep, remove)
    ensures EdgesLive(Merge(g, keep, remove, o))
  {
    RebuildInOrder(g, keep, remove, o);
    MergedEdges(g, keep, remove, o);
    QuotientIsLive(Merge(g, keep, remove, o).edges, g.edges, g.nodes.Keys, keep, remove);
  }

  lemma MergedEdges(g: Graph, keep: NodeId, remove: NodeId, o: Oracle)
    requires keep in g.nodes && remove in g.nodes && keep != remove
    ensures Merge(g, keep, remove, o).edges == RebuildEdges(g.edges, o.edgeOrder(g.edges), keep, remove, o)
    ensures Merge(g, keep, remove, o).nodes.Keys == g.nodes.Keys - {remove}
  {
  }

  lemma RebuildInOrder(g: Graph, keep: NodeId, remove: NodeId, o: Oracle)
    requires Fair(o) && WellKeyed(g.edges)
    ensures QuotientOf(RebuildEdges(g.edges, o.edgeOrder(g.edges), keep, remove, o), g.edges, g.edges.Keys, keep,
      remove)
  {
    var order := o.edgeOrder(g.edges);
    assert Enumerates(order, g.edges.Keys);
    RebuiltIsQuotient(g.edges, order, keep, remove, o);
    assert (set k | k in order) == g.edges.Keys;
  }

  lemma {:induction false} MergeAllKeepsEdgesLive(g: Graph, keep: NodeId, others: seq<NodeId>, o: Oracle)
    requires Fair(o) && EdgesLive(g) && keep in g.nodes && keep !in others
    ensures EdgesLive(MergeAll(g, keep, others, o)) && keep in MergeAll(g, keep, others, o).nodes
  {
    if |others| > 0 {
      var before, last := others[..|others| - 1], others[|others| - 1];
      MergeAllKeepsEdgesLive(g, keep, before, o);
      var h := MergeAll(g, keep, before, o);
      if last in h.nodes {
        MergeQuotientsEdges(h, keep, last, o);
        MergedEdges(h, keep, last, o);
      }
    }
  }

  /** Resolving an identity, merges and all, leaves every edge between live nodes. */
  lemma ResolveKeepsEdgesLive(g: Graph, cfg: Config, identity: NodeIdentity, at: Time, o: Oracle)
    requires Fair(o) && Rooted(g) && EdgesLive(g)
    ensures EdgesLive(Resolve(g, cfg, identity, at, o).graph)
  {
    var i := WithoutConflict(g, identity);
    var matches := Matches(g, cfg, i, at);
    if matches != {} {
      MatchesAreLive(g, cfg, i, at);
      var keep := Survivor(g, i, matches);
      var others := Ascending(matches - {keep});
      MergeAllKeepsEdgesLive(g, keep, others, o);
      ResolvedEdges(g, cfg, identity, at, o);
    }
  }

  /** Binding aliases and absorbing an identity leave edges alone. */
  lemma ResolvedEdges(g: Graph, cfg: Config, identity: NodeIdentity, at: Time, o: Oracle)
    ensures var i := WithoutConflict(g, identity);
      var matches := Matches(g, cfg, i, at);
      matches != {} ==>
        var merged := MergeAll(g, Survivor(g, i, matches), Ascending(matches - {Survivor(g, i, matches)}), o);
        var h := Resolve(g, cfg, identity, at, o).graph;
        h.edges == merged.edges && h.nodes.Keys == merged.nodes.Keys
  {
  }
}
