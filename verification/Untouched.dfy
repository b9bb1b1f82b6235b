/** What a merge leaves alone. An edge is untouched by a merge if neither of its ends absorbs a node or is
    absorbed, and then what is known of its evidence stays as it is, whatever else is merged. */
module Untouched {
  import opened Names
  import opened Evidence
  import opened Canonical
  import opened Invariants
  import opened Quotient
  import opened Pairing

  /** What is known of an edge's evidence, if anything. */
  function KnownOf(g: Graph, k: EdgeKey): Option<Evidence> {
    if k in g.edges then g.edges[k].lastKnown else None
  }

  // ---------------------------------------------------------------------------------------------
  // The invariant
  // ---------------------------------------------------------------------------------------------

  predicate IsEnd(k: EdgeKey, n: NodeId) {
    n == k.source || n == k.target
  }

  /** The directions of an edge name its own ends only. */
  predicate OwnEnds(e: Evidence, k: EdgeKey) {
    forall i | 0 <= i < |e.directions| ::
      IsEnd(k, e.directions[i].from) && IsEnd(k, e.directions[i].to) && IsEnd(k, e.directions[i].observer)
  }

  ghost predicate TidyEdge(edge: Edge, k: EdgeKey) {
    edge.lastActive > NEVER && (edge.lastKnown.Some? ==> OwnEnds(edge.lastKnown.value, k))
  }

  /** Every edge was active at some time, and what is known of it is about its own ends. */
  ghost predicate Tidy(edges: map<EdgeKey, Edge>) {
    forall k | k in edges :: TidyEdge(edges[k], k)
  }

  ghost predicate Sane(g: Graph) {
    Compressed(g.nodes.Keys, g.redirects) && WellKeyed(g.edges) && Tidy(g.edges)
  }

  // ---------------------------------------------------------------------------------------------
  // Ends that stay apart
  // ---------------------------------------------------------------------------------------------

  /** What was redirected still is, further on if its node was absorbed in turn. */
  ghost predicate Follow(before: map<NodeId, NodeId>, after: map<NodeId, NodeId>) {
    forall f | f in before :: f in after && after[f] == RootIn(after, before[f])
  }

  /** The node was not absorbed, and it absorbed nothing. */
  ghost predicate Apart(before: map<NodeId, NodeId>, after: map<NodeId, NodeId>, n: NodeId) {
    && (n in after ==> n in before)
    && (forall f | f in after && after[f] == n :: f in before && before[f] == n)
  }

  ghost predicate Aside(g: Graph, h: Graph, k: EdgeKey) {
    k.source != k.target && Apart(g.redirects, h.redirects, k.source) && Apart(g.redirects, h.redirects, k.target)
  }

  ghost predicate Absorbs(g: Graph, h: Graph) {
    Sane(g) ==> Sane(h) && Follow(g.redirects, h.redirects)
  }

  lemma FollowOn(a: map<NodeId, NodeId>, b: map<NodeId, NodeId>, c: map<NodeId, NodeId>)
    requires Follow(a, b) && Follow(b, c)
    ensures Follow(a, c)
  {
  }

  ghost predicate Direct(redirects: map<NodeId, NodeId>) {
    forall f | f in redirects :: redirects[f] !in redirects
  }

  lemma ApartSplits(a: map<NodeId, NodeId>, b: map<NodeId, NodeId>, c: map<NodeId, NodeId>, n: NodeId)
    requires Direct(a) && Direct(b) && Direct(c) && Follow(a, b) && Follow(b, c) && Apart(a, c, n)
    ensures Apart(a, b, n) && Apart(b, c, n)
  {
    if n !in a {
      forall f | f in b && b[f] == n ensures f in a && a[f] == n {
        assert c[f] == RootIn(c, n);
      }
      forall f | f in c && c[f] == n ensures f in b && b[f] == n {
        assert b[f] == RootIn(b, a[f]);
      }
    }
  }

  lemma AbsorbsOn(g: Graph, m: Graph, h: Graph, k: EdgeKey)
    requires Absorbs(g, m) && Absorbs(m, h)
    ensures Absorbs(g, h)
    ensures Sane(g) && Aside(g, h, k) ==> Aside(g, m, k) && Aside(m, h, k)
  {
    if Sane(g) {
      FollowOn(g.redirects, m.redirects, h.redirects);
      if Aside(g, h, k) {
        ApartSplits(g.redirects, m.redirects, h.redirects, k.source);
        ApartSplits(g.redirects, m.redirects, h.redirects, k.target);
      }
    }
  }

  // ---------------------------------------------------------------------------------------------
  // Merges
  // ---------------------------------------------------------------------------------------------

  /** The edge is still there if it was, and what is known of it is the same. */
  predicate Stays(g: Graph, h: Graph, k: EdgeKey) {
    KnownOf(h, k) == KnownOf(g, k) && (k in g.edges ==> k in h.edges)
  }

  /** From `g` to `h` nodes may have been merged, but an edge stays if it was untouched. */
  ghost predicate Spares(g: Graph, h: Graph, k: EdgeKey) {
    Absorbs(g, h) && (Sane(g) && Aside(g, h, k) ==> Stays(g, h, k))
  }

  lemma SparesOn(g: Graph, m: Graph, h: Graph, k: EdgeKey)
    requires Spares(g, m, k) && Spares(m, h, k)
    ensures Spares(g, h, k)
  {
    AbsorbsOn(g, m, h, k);
  }

  ghost predicate SameIds(g: Graph, h: Graph) {
    h.nodes.Keys == g.nodes.Keys && h.redirects == g.redirects
  }

  lemma SameRedirectsFollow(g: Graph, h: Graph)
    requires Compressed(g.nodes.Keys, g.redirects) && h.redirects == g.redirects
    ensures Follow(g.redirects, h.redirects)
  {
  }

  lemma SameEdgesSpare(g: Graph, h: Graph, k: EdgeKey)
    requires SameIds(g, h) && h.edges == g.edges
    ensures Spares(g, h, k)
  {
    if Sane(g) {
      SameRedirectsFollow(g, h);
    }
  }

  lemma RepointedFollow(live: set<NodeId>, redirects: map<NodeId, NodeId>, keep: NodeId, remove: NodeId)
    requires Compressed(live, redirects) && keep in live && remove in live && keep != remove
    ensures Follow(redirects, RepointRedirects(redirects, keep, remove))
  {
  }

  lemma RepointOwn(e: Evidence, k: EdgeKey, keep: NodeId, remove: NodeId)
    requires OwnEnds(e, k) && !IsEnd(k, remove)
    ensures RepointEvidence(e, keep, remove) == e
  {
    assert RepointEvidence(e, keep, remove).directions == e.directions;
  }

  lemma RepointTidy(e: Evidence, k: EdgeKey, keep: NodeId, remove: NodeId)
    requires OwnEnds(e, k)
    ensures OwnEnds(RepointEvidence(e, keep, remove), Image(k, keep, remove))
  {
  }

  lemma QuotientTidy(
    after: map<EdgeKey, Edge>, edges: map<EdgeKey, Edge>, keep: NodeId, remove: NodeId)
    requires Tidy(edges) && QuotientOf(after, edges, edges.Keys, keep, remove)
    ensures Tidy(after)
  {
    forall image | image in after ensures TidyEdge(after[image], image) {
      var from := Preimages(edges.Keys, image, keep, remove);
      var r := after[image];
      assert Gathers(r, image, edges, from, keep, remove);
      var k :| k in from;
      assert TidyEdge(edges[k], k);
      var j :| j in from && edges[j].lastActive == r.lastActive &&
        r.lastKnown == (if edges[j].lastKnown.Some? then Some(RepointEvidence(edges[j].lastKnown.value, keep, remove))
          else None);
      assert TidyEdge(edges[j], j);
      if edges[j].lastKnown.Some? {
        RepointTidy(edges[j].lastKnown.value, j, keep, remove);
      }
    }
  }

  /** An edge whose ends are neither of the two keeps its preimage to itself. */
  lemma QuotientSpares(after: map<EdgeKey, Edge>, edges: map<EdgeKey, Edge>, k: EdgeKey, keep: NodeId, remove: NodeId)
    requires WellKeyed(edges) && Tidy(edges) && QuotientOf(after, edges, edges.Keys, keep, remove)
    requires k.source != k.target && !IsEnd(k, keep) && !IsEnd(k, remove)
    ensures k in after <==> k in edges
    ensures k in edges ==> after[k].lastKnown == edges[k].lastKnown
  {
    var from := Preimages(edges.Keys, k, keep, remove);
    forall j | j in from ensures j == k {
      assert KeyedAs(j, edges[j]);
    }
    if k in edges {
      assert KeyedAs(k, edges[k]) && TidyEdge(edges[k], k);
      assert k in from;
      assert Gathers(after[k], k, edges, from, keep, remove);
      var j :| j in from && edges[j].lastActive == after[k].lastActive &&
        after[k].lastKnown ==
          (if edges[j].lastKnown.Some? then Some(RepointEvidence(edges[j].lastKnown.value, keep, remove)) else None);
      if edges[k].lastKnown.Some? {
        RepointOwn(edges[k].lastKnown.value, k, keep, remove);
      }
    } else {
      assert from == {};
    }
  }

  lemma RealMergeSpares(g: Graph, keep: NodeId, remove: NodeId, o: Oracle, k: EdgeKey)
    requires Fair(o) && Sane(g) && keep in g.nodes && remove in g.nodes && keep != remove
    ensures Spares(g, Merge(g, keep, remove, o), k)
  {
    var h := Merge(g, keep, remove, o);
    MergedEdges(g, keep, remove, o);
    RebuildInOrder(g, keep, remove, o);
    RebuildKeepsKeys(g.edges, o.edgeOrder(g.edges), keep, remove, o);
    MergedRedirects(g, keep, remove, o);
    QuotientGraphSpares(g, h, keep, remove, k);
  }

  lemma MergedRedirects(g: Graph, keep: NodeId, remove: NodeId, o: Oracle)
    requires keep in g.nodes && remove in g.nodes && keep != remove
    ensures Merge(g, keep, remove, o).redirects == RepointRedirects(g.redirects, keep, remove)
  {
  }

  lemma QuotientGraphSpares(g: Graph, h: Graph, keep: NodeId, remove: NodeId, k: EdgeKey)
    requires Sane(g) && keep in g.nodes && remove in g.nodes && keep != remove
    requires h.nodes.Keys == g.nodes.Keys - {remove} && h.redirects == RepointRedirects(g.redirects, keep, remove)
    requires WellKeyed(h.edges) && QuotientOf(h.edges, g.edges, g.edges.Keys, keep, remove)
    ensures Spares(g, h, k)
  {
    QuotientTidy(h.edges, g.edges, keep, remove);
    RepointKeepsCompressed(g.nodes.Keys, g.redirects, keep, remove);
    RepointedFollow(g.nodes.Keys, g.redirects, keep, remove);
    if Aside(g, h, k) {
      assert remove !in g.redirects && h.redirects[remove] == keep;
      QuotientSpares(h.edges, g.edges, k, keep, remove);
    }
  }

  lemma MergeSpares(g: Graph, keep: NodeId, remove: NodeId, o: Oracle, k: EdgeKey)
    requires Fair(o)
    ensures Spares(g, Merge(g, keep, remove, o), k)
  {
    if keep in g.nodes && remove in g.nodes && keep != remove {
      if Sane(g) {
        RealMergeSpares(g, keep, remove, o, k);
      }
    } else {
      SameEdgesSpare(g, g, k);
    }
  }

  lemma {:induction false} MergeAllSpares(g: Graph, keep: NodeId, others: seq<NodeId>, o: Oracle, k: EdgeKey)
    requires Fair(o)
    ensures Spares(g, MergeAll(g, keep, others, o), k)
  {
    if |others| == 0 {
      SameEdgesSpare(g, g, k);
    } else {
      var before := MergeAll(g, keep, others[..|others| - 1], o);
      MergeAllSpares(g, keep, others[..|others| - 1], o, k);
      MergeSpares(before, keep, others[|others| - 1], o, k);
      SparesOn(g, before, MergeAll(g, keep, others, o), k);
    }
  }

  lemma {:induction false} MergeInferredSpares(g: Graph, pairs: seq<(NodeId, NodeId)>, o: Oracle, k: EdgeKey)
    requires Fair(o)
    ensures Spares(g, MergeInferred(g, pairs, o), k)
  {
    if |pairs| == 0 {
      SameEdgesSpare(g, g, k);
    } else {
      var before, last := MergeInferred(g, pairs[..|pairs| - 1], o), pairs[|pairs| - 1];
      MergeInferredSpares(g, pairs[..|pairs| - 1], o, k);
      if Inferable(before, last.1) {
        MergeSpares(before, last.0, last.1, o, k);
        SparesOn(g, before, MergeInferred(g, pairs, o), k);
      }
    }
  }

  lemma InferenceSpares(g: Graph, h: Graph, pairs: seq<(NodeId, NodeId)>, o: Oracle, k: EdgeKey)
    requires Fair(o) && InferredFrom(g, h, pairs, o)
    ensures Spares(g, h, k)
  {
    var m := MergeInferred(g, pairs, o);
    MergeInferredSpares(g, pairs, o, k);
    SameEdgesSpare(m, h, k);
    SparesOn(g, m, h, k);
  }

  // ---------------------------------------------------------------------------------------------
  // Identities
  // ---------------------------------------------------------------------------------------------

  lemma GrowSpares(g: Graph, h: Graph, id: NodeId, k: EdgeKey)
    requires id !in Known(g) && h.nodes.Keys == g.nodes.Keys + {id} && h.redirects == g.redirects && h.edges == g.edges
    ensures Spares(g, h, k)
  {
    if Sane(g) {
      SameRedirectsFollow(g, h);
    }
  }

  lemma AbsorbSpares(g: Graph, i: NodeIdentity, node: NodeId, at: Time, k: EdgeKey)
    ensures Spares(g, BindAliases(AbsorbIdentity(g, node, i), i, node, at), k)
  {
    SameEdgesSpare(g, BindAliases(AbsorbIdentity(g, node, i), i, node, at), k);
  }

  lemma ResolveSpares(g: Graph, cfg: Config, identity: NodeIdentity, at: Time, o: Oracle, k: EdgeKey)
    requires Fair(o)
    ensures Spares(g, Resolve(g, cfg, identity, at, o).graph, k)
  {
    var i := WithoutConflict(g, identity);
    var matches := Matches(g, cfg, i, at);
    var h := Resolve(g, cfg, identity, at, o).graph;
    if matches == {} {
      assert o.newId(g) !in Known(g);
      GrowSpares(g, h, o.newId(g), k);
    } else {
      var keep := Survivor(g, i, matches);
      var merged := MergeAll(g, keep, Ascending(matches - {keep}), o);
      MergeAllSpares(g, keep, Ascending(matches - {keep}), o, k);
      AbsorbSpares(merged, i, keep, at, k);
      SparesOn(g, merged, h, k);
    }
  }
}
