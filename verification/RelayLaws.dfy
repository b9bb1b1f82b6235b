/** The ends of a relay session (resolveRelaySessionLocked, resolveRelayClientLocked): a client keeps its node
    through every identity it comes to show, and the ends that a session ends up with are live exactly when the
    identity that its target shows does not absorb its source. */
module RelayLaws {
  import opened Names
  import opened Canonical
  import opened Invariants
  import opened Pairing
  import opened ScopeQuotient
  import opened Inference
  import opened Reports
  import opened ReportProofs

  // ---------------------------------------------------------------------------------------------
  // A client keeps its node
  // ---------------------------------------------------------------------------------------------

  /** Merging a list of live nodes into another moves exactly those. */
  lemma {:induction false} MergeAllGathers(g: Graph, keep: NodeId, others: seq<NodeId>, n: NodeId, o: Oracle)
    requires Sound(g) && keep in g.nodes && keep !in others && forall m | m in others :: m in g.nodes
    requires forall i, j | 0 <= i < j < |others| :: others[i] != others[j]
    requires n in g.nodes
    ensures Root(MergeAll(g, keep, others, o), n) == if n in others then keep else n
  {
    if |others| > 0 {
      var before, last := others[..|others| - 1], others[|others| - 1];
      assert others == before + [last];
      MergeAllGathers(g, keep, before, n, o);
      MergeAllKeepsSound(g, keep, before, o);
      MergeAllRemoves(g, keep, before, o);
      MergeMoves(MergeAll(g, keep, before, o), keep, last, n, o);
    }
  }

  lemma MergeMoves(g: Graph, keep: NodeId, remove: NodeId, n: NodeId, o: Oracle)
    requires Sound(g) && keep in g.nodes && remove in g.nodes
    ensures Root(Merge(g, keep, remove, o), n) == Repoint(Root(g, n), keep, remove)
  {
    MergeKeepsSound(g, keep, remove, o);
  }

  /** Resolving an identity absorbs exactly the matches that are not the node it returns. */
  lemma ResolveGathers(g: Graph, cfg: Config, identity: NodeIdentity, at: Time, n: NodeId, o: Oracle)
    requires Sound(g) && n in g.nodes
    ensures var r := Resolve(g, cfg, identity, at, o);
      var matches := Matches(g, cfg, WithoutConflict(g, identity), at);
      && r.node == (if matches == {} then o.newId(g) else Survivor(g, WithoutConflict(g, identity), matches))
      && Root(r.graph, n) == if n in matches then r.node else n
  {
    var i := WithoutConflict(g, identity);
    var matches := Matches(g, cfg, i, at);
    ResolveRedirects(g, cfg, identity, at, o);
    if matches != {} {
      MatchesAreLive(g, cfg, i, at);
      var keep := Survivor(g, i, matches);
      MergeAllGathers(g, keep, Ascending(matches - {keep}), n, o);
    }
  }

  /** What becomes of the node that a client had. */
  ghost predicate NodeKept(g: Graph, existing: Option<NodeId>, h: Graph, node: NodeId) {
    && Sound(h) && node in h.nodes && Known(g) <= Known(h)
    && (existing.Some? ==> Root(h, existing.value) == node)
  }

  lemma ShownKeepsNode(w: Work, cfg: Config, existing: Option<NodeId>, c: RelayClient, at: Time, o: Oracle)
    requires Sound(w.graph) && Fair(o) && (existing.Some? ==> existing.value in w.graph.nodes)
    requires c.identity.Some? && StatusOf(c.identity.value) == Resolved
    ensures var r := ResolveClient(w, cfg, existing, c, at, o); NodeKept(w.graph, existing, r.work.graph, r.node)
  {
    var g, identity := w.graph, c.identity.value;
    var r := Resolve(g, cfg, identity, at, o);
    ResolveKeepsSound(g, cfg, identity, at, o);
    if existing.Some? {
      ResolveGathers(g, cfg, identity, at, existing.value, o);
      ExistingMerged(r.graph, r.node, existing.value, o);
    }
  }

  lemma ExistingMerged(g: Graph, node: NodeId, existing: NodeId, o: Oracle)
    requires Sound(g) && node in g.nodes && existing in Known(g)
    requires Root(g, existing) == existing || Root(g, existing) == node
    ensures var h := if existing != node then Merge(g, node, existing, o) else g;
      Sound(h) && node in h.nodes && Known(h) == Known(g) && Root(h, existing) == node
  {
    MergeKeepsSound(g, node, existing, o);
  }

  lemma UnshownKeepsNode(w: Work, cfg: Config, existing: Option<NodeId>, c: RelayClient, at: Time, o: Oracle)
    requires Sound(w.graph) && Fair(o) && (existing.Some? ==> existing.value in w.graph.nodes)
    requires !(c.identity.Some? && StatusOf(c.identity.value) == Resolved)
    ensures var r := ResolveClient(w, cfg, existing, c, at, o);
      && NodeKept(w.graph, existing, r.work.graph, r.node)
      && if existing.Some? then r.node == existing.value else r.node !in Known(w.graph)
  {
    var g := w.graph;
    if existing.Some? {
      var n := g.nodes[existing.value].(status := ClientStatus(c));
      RetouchSound(g, g.(nodes := g.nodes[existing.value := n]), existing.value, n);
    } else {
      GrowKeepsSound(g, o.newId(g), NewNode(NO_IDENTITY, ClientStatus(c), at));
    }
  }

  /** Whatever identity a client comes to show, the node it was is the node it is: the two are one from then on,
      and that node is live. A client that shows none stays the node it was, or becomes a new one. */
  lemma ClientKeepsItsNode(w: Work, cfg: Config, existing: Option<NodeId>, c: RelayClient, at: Time, o: Oracle)
    requires Sound(w.graph) && Fair(o) && (existing.Some? ==> existing.value in w.graph.nodes)
    ensures var r := ResolveClient(w, cfg, existing, c, at, o);
      && NodeKept(w.graph, existing, r.work.graph, r.node)
      && (c.identity.None? ==> if existing.Some? then r.node == existing.value else r.node !in Known(w.graph))
  {
    if c.identity.Some? && StatusOf(c.identity.value) == Resolved {
      ShownKeepsNode(w, cfg, existing, c, at, o);
    } else {
      UnshownKeepsNode(w, cfg, existing, c, at, o);
    }
  }

  // ---------------------------------------------------------------------------------------------
  // Scopes name live nodes
  // ---------------------------------------------------------------------------------------------

  ghost predicate SessionWithin(s: RelaySession, live: set<NodeId>) {
    s.source in live && s.target in live && forall c | c in s.clients :: s.clients[c] in live
  }

  ghost predicate ScopeWithin(scope: RelayScope, live: set<NodeId>) {
    && scope.relay in live
    && (scope.pair.Some? ==> scope.pair.value.source in live && scope.pair.value.target in live)
    && forall id | id in scope.sessions :: SessionWithin(scope.sessions[id], live)
  }

  /** Scopes are well keyed, and whatever they name is live. */
  ghost predicate ScopesLive(g: Graph) {
    WellScoped(g.scopes) && forall k | k in g.scopes :: ScopeWithin(g.scopes[k], g.nodes.Keys)
  }

  lemma RepointWithin(scope: RelayScope, live: set<NodeId>, keep: NodeId, remove: NodeId)
    requires ScopeWithin(scope, live) && keep in live && keep != remove
    ensures ScopeWithin(RepointScope(scope, keep, remove), live - {remove})
  {
  }

  lemma RebuiltWithin(
    scopes: map<ScopeKey, RelayScope>, order: seq<ScopeKey>, live: set<NodeId>, keep: NodeId, remove: NodeId)
    requires WellScoped(scopes) && Enumerates(order, scopes.Keys) && keep in live && keep != remove
    requires forall k | k in scopes :: ScopeWithin(scopes[k], live)
    ensures var rebuilt := RebuildScopes(scopes, order, keep, remove);
      WellScoped(rebuilt) && forall k | k in rebuilt :: ScopeWithin(rebuilt[k], live - {remove})
  {
    var rebuilt := RebuildScopes(scopes, order, keep, remove);
    ScopesNameSurvivors(scopes, order, keep, remove);
    RebuiltScopesAreQuotient(scopes, order, keep, remove);
    var all := set k | k in order;
    forall image | image in rebuilt ensures ScopeWithin(rebuilt[image], live - {remove}) {
      assert ScopeAtImage(rebuilt, scopes, all, image, keep, remove);
      var from := ScopesTo(all, image, keep, remove);
      var k :| k in from;
      RepointWithin(scopes[k], live, keep, remove);
      var p :| p in from && scopes[p].pairAt == rebuilt[image].pairAt
        && rebuilt[image].pair == RepointScope(scopes[p], keep, remove).pair;
      RepointWithin(scopes[p], live, keep, remove);
      forall id | id in rebuilt[image].sessions ensures SessionWithin(rebuilt[image].sessions[id], live - {remove}) {
        assert LatestSession(rebuilt[image].sessions[id], id, scopes, from, keep, remove);
        var j :| j in from && id in scopes[j].sessions
          && rebuilt[image].sessions[id] == RepointSession(scopes[j].sessions[id], keep, remove);
        RepointWithin(scopes[j], live, keep, remove);
        assert RepointScope(scopes[j], keep, remove).sessions[id] == rebuilt[image].sessions[id];
      }
    }
  }

  lemma MergeKeepsScopesLive(g: Graph, keep: NodeId, remove: NodeId, o: Oracle)
    requires Fair(o) && ScopesLive(g)
    ensures ScopesLive(Merge(g, keep, remove, o))
  {
    if keep in g.nodes && remove in g.nodes && keep != remove {
      var h, order := Merge(g, keep, remove, o), o.scopeOrder(g.scopes);
      assert Enumerates(order, g.scopes.Keys);
      RebuiltWithin(g.scopes, order, g.nodes.Keys, keep, remove);
      assert h.nodes.Keys == g.nodes.Keys - {remove} && h.scopes == RebuildScopes(g.scopes, order, keep, remove);
    }
  }

  lemma {:induction false} MergeAllKeepsScopesLive(g: Graph, keep: NodeId, others: seq<NodeId>, o: Oracle)
    requires Fair(o) && ScopesLive(g)
    ensures ScopesLive(MergeAll(g, keep, others, o))
  {
    if |others| > 0 {
      MergeAllKeepsScopesLive(g, keep, others[..|others| - 1], o);
      MergeKeepsScopesLive(MergeAll(g, keep, others[..|others| - 1], o), keep, others[|others| - 1], o);
    }
  }

  lemma SameScopesLive(g: Graph, h: Graph)
    requires ScopesLive(g) && h.scopes == g.scopes && g.nodes.Keys <= h.nodes.Keys
    ensures ScopesLive(h)
  {
    forall k | k in h.scopes ensures ScopeWithin(h.scopes[k], h.nodes.Keys) {
      assert ScopeWithin(g.scopes[k], g.nodes.Keys);
    }
  }

  lemma AbsorbKeepsScopes(g: Graph, i: NodeIdentity, node: NodeId, at: Time)
    ensures var h := BindAliases(AbsorbIdentity(g, node, i), i, node, at);
      h.scopes == g.scopes && h.nodes.Keys == g.nodes.Keys
  {
  }

  lemma ResolveKeepsScopesLive(g: Graph, cfg: Config, identity: NodeIdentity, at: Time, o: Oracle)
    requires Fair(o) && ScopesLive(g)
    ensures ScopesLive(Resolve(g, cfg, identity, at, o).graph)
  {
    var i := WithoutConflict(g, identity);
    var matches := Matches(g, cfg, i, at);
    if matches == {} {
      SameScopesLive(g, Resolve(g, cfg, identity, at, o).graph);
    } else {
      var keep := Survivor(g, i, matches);
      var merged := MergeAll(g, keep, Ascending(matches - {keep}), o);
      MergeAllKeepsScopesLive(g, keep, Ascending(matches - {keep}), o);
      AbsorbKeepsScopes(merged, i, keep, at);
      SameScopesLive(merged, BindAliases(AbsorbIdentity(merged, keep, i), i, keep, at));
    }
  }

  lemma ClientKeepsScopesLive(w: Work, cfg: Config, existing: Option<NodeId>, c: RelayClient, at: Time, o: Oracle)
    requires Fair(o) && ScopesLive(w.graph)
    ensures ScopesLive(ResolveClient(w, cfg, existing, c, at, o).work.graph)
  {
    if c.identity.Some? && StatusOf(c.identity.value) == Resolved {
      var (h, r) := ResolveIn(w, cfg, c.identity.value, at, o);
      ResolveKeepsScopesLive(w.graph, cfg, c.identity.value, at, o);
      if existing.Some? {
        MergeKeepsScopesLive(h.graph, r.node, existing.value, o);
      }
    } else {
      SameScopesLive(w.graph, ResolveClient(w, cfg, existing, c, at, o).work.graph);
    }
  }

  lemma PutKeepsScopesLive(g: Graph, key: ScopeKey, id: Text, s: RelaySession)
    requires ScopesLive(g) && key in g.scopes && SessionWithin(s, g.nodes.Keys)
    ensures ScopesLive(PutSession(g, key, id, s))
  {
    assert ScopeWithin(g.scopes[key], g.nodes.Keys);
  }

  // ---------------------------------------------------------------------------------------------
  // The ends of a session
  // ---------------------------------------------------------------------------------------------

  /** Everything that placing a client relies on, and keeps. */
  ghost predicate Standing(g: Graph) {
    Sound(g) && ScopesLive(g)
  }

  lemma EnterStanding(w: Work, key: ScopeKey, id: Text, at: Time)
    requires Standing(w.graph) && key.relay in w.graph.nodes
    ensures var h := EnterSession(w, key, id, at).graph; Standing(h) && HasSession(h, key, id)
  {
    var h := EnterSession(w, key, id, at).graph;
    ScopesSound(w.graph, h.scopes);
    EnterScopesLive(w, key, id, at);
  }

  lemma EnterScopesLive(w: Work, key: ScopeKey, id: Text, at: Time)
    requires ScopesLive(w.graph) && key.relay in w.graph.nodes
    ensures var h := EnterSession(w, key, id, at).graph;
      ScopesLive(h) && HasSession(h, key, id) && h == w.graph.(scopes := h.scopes)
  {
    if key in w.graph.scopes {
      assert ScopeWithin(w.graph.scopes[key], w.graph.nodes.Keys);
    }
  }

  lemma PutClientStanding(g: Graph, key: ScopeKey, id: Text, client: Text, node: NodeId)
    requires Standing(g) && node in g.nodes
    ensures var h := PutClient(g, key, id, client, node); Standing(h) && h == g.(scopes := h.scopes)
  {
    ScopesSound(g, PutClient(g, key, id, client, node).scopes);
    if HasSession(g, key, id) {
      assert ScopeWithin(g.scopes[key], g.nodes.Keys);
      PutKeepsScopesLive(g, key, id, SessionOf(g, key, id).(clients := SessionOf(g, key, id).clients[client := node]));
    }
  }

  lemma PlaceClientStanding(w: Work, cfg: Config, key: ScopeKey, id: Text, c: RelayClient, at: Time, o: Oracle)
    requires Standing(w.graph) && Fair(o) && !PlaceClient(w, cfg, key, id, c, at, o).1
    ensures var (r, _) := PlaceClient(w, cfg, key, id, c, at, o);
      Standing(r.work.graph) && NodeKept(w.graph, ClientNode(w.graph, key, id, c.id), r.work.graph, r.node)
  {
    var existing := ClientNode(w.graph, key, id, c.id);
    ClientsAreLive(w.graph, key, id, c.id);
    ClientKeepsItsNode(w, cfg, existing, c, at, o);
    ClientKeepsScopesLive(w, cfg, existing, c, at, o);
    var r := ResolveClient(w, cfg, existing, c, at, o);
    PutClientStanding(r.work.graph, key, id, c.id, r.node);
    SameNodesKeep(w.graph, existing, r.work.graph, PutClient(r.work.graph, key, id, c.id, r.node), r.node);
  }

  lemma ClientsAreLive(g: Graph, key: ScopeKey, id: Text, client: Text)
    requires ScopesLive(g)
    ensures var existing := ClientNode(g, key, id, client); existing.Some? ==> existing.value in g.nodes
  {
    if key in g.scopes {
      assert ScopeWithin(g.scopes[key], g.nodes.Keys);
    }
  }

  lemma SameNodesKeep(g: Graph, existing: Option<NodeId>, m: Graph, h: Graph, node: NodeId)
    requires NodeKept(g, existing, m, node) && Sound(h) && h == m.(scopes := h.scopes)
    ensures NodeKept(g, existing, h, node)
  {
  }

  /** The target is live once both are placed, and the source is if resolving the target did not absorb it. */
  lemma PlaceSessionStanding(w: Work, cfg: Config, relay: NodeId, s: SessionReport, at: Time, o: Oracle)
    requires Standing(w.graph) && Fair(o) && relay in w.graph.nodes && !PlaceSession(w, cfg, relay, s, at, o).tangled
    ensures var p := PlaceSession(w, cfg, relay, s, at, o);
      && Sound(p.work.graph) && WellScoped(p.work.graph.scopes)
      && p.target.node in p.work.graph.nodes
      && p.source.node in Known(p.work.graph)
      && (p.source.node in p.work.graph.nodes ==> ScopesLive(p.work.graph))
  {
    var key := ScopeKey(relay, s.vni);
    var entered := EnterSession(w, key, s.id, at);
    EnterStanding(w, key, s.id, at);
    PlaceClientStanding(entered, cfg, key, s.id, s.source, at, o);
    var (a, _) := PlaceClient(entered, cfg, key, s.id, s.source, at, o);
    PlaceClientStanding(a.work, cfg, key, s.id, s.target, at, o);
    var (b, _) := PlaceClient(a.work, cfg, key, s.id, s.target, at, o);
    EndsStanding(b.work.graph, key, s, a, b);
  }

  lemma EndsStanding(g: Graph, key: ScopeKey, s: SessionReport, a: ClientResult, b: ClientResult)
    requires Standing(g) && b.node in g.nodes
    ensures var h := PutEnds(g, key, s, a, b);
      && Sound(h) && WellScoped(h.scopes) && h.nodes == g.nodes && h.redirects == g.redirects
      && (a.node in h.nodes ==> ScopesLive(h))
  {
    ScopesSound(g, PutEnds(g, key, s, a, b).scopes);
    if HasSession(g, key, s.id) && a.node in g.nodes {
      assert ScopeWithin(g.scopes[key], g.nodes.Keys);
      PutKeepsScopesLive(g, key, s.id, SessionOf(g, key, s.id).(
        sourceClient := s.source.id, targetClient := s.target.id, source := a.node, target := b.node,
        sourceStatus := a.status, targetStatus := b.status));
    }
  }

  // ---------------------------------------------------------------------------------------------
  // Settling the pair
  // ---------------------------------------------------------------------------------------------

  /** Where the walk over the sessions of an established scope stands. */
  ghost predicate OnTheWay(h: Graph, key: ScopeKey, pair: EdgeKey) {
    Settled(h) && key in h.scopes && h.scopes[key].pair == Some(pair)
  }

  lemma CompleteOnTheWay(h: Graph, cfg: Config, key: ScopeKey, pair: EdgeKey, id: Text, at: Time, o: Oracle)
    requires Fair(o) && OnTheWay(h, key, pair) && !CompleteSession(h, cfg, key, pair, id, at, o).tangled
    ensures OnTheWay(CompleteSession(h, cfg, key, pair, id, at, o).graph, key, pair)
    ensures ScopesLive(h) ==> ScopesLive(CompleteSession(h, cfg, key, pair, id, at, o).graph)
  {
    if HasSession(h, key, id) && SessionInferable(h, cfg, pair, SessionOf(h, key, id), at) {
      var s := SessionOf(h, key, id);
      var keep, open :=
        Complement(pair, if InPair(pair, s.source) then s.source else s.target),
        if InPair(pair, s.source) then s.target else s.source;
      MergeMovesScope(h, key, pair, keep, open, o);
      if ScopesLive(h) {
        MergeKeepsScopesLive(h, keep, open, o);
        var m := Merge(h, keep, open, o);
        assert ScopeWithin(m.scopes[key], m.nodes.Keys);
        var t := SessionOf(m, key, id);
        PutKeepsScopesLive(m, key, id, t.(target := keep, targetStatus := Resolved));
        PutKeepsScopesLive(m, key, id, t.(source := keep, sourceStatus := Resolved));
      }
    }
  }

  /** A session whose source is dead keeps it: only a live node is inferred. */
  ghost predicate DeadSource(h: Graph, key: ScopeKey, id: Text, x: NodeId) {
    HasSession(h, key, id) && SessionOf(h, key, id).source == x && x !in h.nodes
  }

  lemma CompleteLeavesDead(
    h: Graph, cfg: Config, key: ScopeKey, pair: EdgeKey, j: Text, id: Text, x: NodeId, at: Time, o: Oracle)
    requires Fair(o) && OnTheWay(h, key, pair) && !CompleteSession(h, cfg, key, pair, j, at, o).tangled
    requires DeadSource(h, key, id, x)
    ensures DeadSource(CompleteSession(h, cfg, key, pair, j, at, o).graph, key, id, x)
  {
    if HasSession(h, key, j) && SessionInferable(h, cfg, pair, SessionOf(h, key, j), at) {
      var s := SessionOf(h, key, j);
      var keep, open :=
        Complement(pair, if InPair(pair, s.source) then s.source else s.target),
        if InPair(pair, s.source) then s.target else s.source;
      MergeMovesScope(h, key, pair, keep, open, o);
      MergeSparesResolved(h, keep, open, o);
      var m := Merge(h, keep, open, o);
      DeadThroughMerge(h, m, key, id, x, keep, open);
      DeadThroughPut(m, key, id, j, x, keep, InPair(pair, s.source));
    }
  }

  lemma DeadThroughMerge(h: Graph, m: Graph, key: ScopeKey, id: Text, x: NodeId, keep: NodeId, open: NodeId)
    requires DeadSource(h, key, id, x) && open in h.nodes && m.nodes.Keys <= h.nodes.Keys && key in m.scopes
    requires m.scopes[key].sessions == h.scopes[key].sessions
          || m.scopes[key].sessions == RepointScope(h.scopes[key], keep, open).sessions
    ensures DeadSource(m, key, id, x)
  {
  }

  lemma DeadThroughPut(m: Graph, key: ScopeKey, id: Text, j: Text, x: NodeId, keep: NodeId, target: bool)
    requires DeadSource(m, key, id, x) && HasSession(m, key, j) && (j == id ==> target)
    ensures var t := SessionOf(m, key, j);
      DeadSource(PutSession(m, key, j, if target then t.(target := keep, targetStatus := Resolved)
                                       else t.(source := keep, sourceStatus := Resolved)), key, id, x)
  {
  }

  lemma {:induction false} WalkOnTheWay(
    g: Graph, cfg: Config, key: ScopeKey, pair: EdgeKey, order: seq<Text>, id: Text, x: NodeId, at: Time, o: Oracle)
    requires Fair(o) && OnTheWay(g, key, pair) && !CompleteSessions(g, cfg, key, pair, order, at, o).tangled
    ensures var h := CompleteSessions(g, cfg, key, pair, order, at, o).graph;
      && OnTheWay(h, key, pair)
      && (ScopesLive(g) ==> ScopesLive(h))
      && (DeadSource(g, key, id, x) ==> DeadSource(h, key, id, x))
  {
    if |order| > 0 {
      var before, last := order[..|order| - 1], order[|order| - 1];
      WalkOnTheWay(g, cfg, key, pair, before, id, x, at, o);
      var h := CompleteSessions(g, cfg, key, pair, before, at, o).graph;
      CompleteOnTheWay(h, cfg, key, pair, last, at, o);
      if DeadSource(h, key, id, x) {
        CompleteLeavesDead(h, cfg, key, pair, last, id, x, at, o);
      }
    }
  }

  lemma ReconcileEnds(g: Graph, cfg: Config, key: ScopeKey, id: Text, x: NodeId, at: Time, o: Oracle)
    requires Fair(o) && Settled(g) && HasSession(g, key, id) && !ReconcileScope(g, cfg, key, at, o).tangled
    ensures var h := ReconcileScope(g, cfg, key, at, o).graph;
      && HasSession(h, key, id)
      && (ScopesLive(g) ==> ScopesLive(h))
      && (DeadSource(g, key, id, x) ==> DeadSource(h, key, id, x))
  {
    ReconcileCompletes(g, cfg, key, at, o);
    if ScopeInferable(g, cfg, key, at) {
      WalkOnTheWay(g, cfg, key, g.scopes[key].pair.value, o.sessionOrder(g.scopes[key].sessions), id, x, at, o);
    }
  }

  lemma RecordEnds(
    g: Graph, cfg: Config, key: ScopeKey, left: NodeId, right: NodeId, id: Text, x: NodeId, at: Time, o: Oracle)
    requires Fair(o) && Settled(g) && HasSession(g, key, id) && left != right
    requires !RecordPair(g, cfg, key.relay, key.vni, left, right, at, o).tangled
    ensures var h := RecordPair(g, cfg, key.relay, key.vni, left, right, at, o).graph;
      && HasSession(h, key, id)
      && (ScopesLive(g) && left in g.nodes && right in g.nodes ==> ScopesLive(h))
      && (DeadSource(g, key, id, x) ==> DeadSource(h, key, id, x))
  {
    var h := g.(scopes := g.scopes[key := PairedScope(ScopeAt(g, key, at), cfg, EdgeOf(left, right), at)]);
    if ScopesLive(g) && left in g.nodes && right in g.nodes {
      PairedScopesLive(g, cfg, key, left, right, at);
    }
    PairedKeepsSession(g, cfg, key, left, right, id, x, at);
    ReconcileEnds(h, cfg, key, id, x, at, o);
  }

  lemma PairedScopesLive(g: Graph, cfg: Config, key: ScopeKey, left: NodeId, right: NodeId, at: Time)
    requires ScopesLive(g) && key in g.scopes && left in g.nodes && right in g.nodes
    ensures ScopesLive(g.(scopes := g.scopes[key := PairedScope(ScopeAt(g, key, at), cfg, EdgeOf(left, right), at)]))
  {
    assert ScopeWithin(g.scopes[key], g.nodes.Keys);
    assert ScopeWithin(PairedScope(ScopeAt(g, key, at), cfg, EdgeOf(left, right), at), g.nodes.Keys);
  }

  lemma PairedKeepsSession(
    g: Graph, cfg: Config, key: ScopeKey, left: NodeId, right: NodeId, id: Text, x: NodeId, at: Time)
    requires Settled(g) && HasSession(g, key, id)
    ensures var h := g.(scopes := g.scopes[key := PairedScope(ScopeAt(g, key, at), cfg, EdgeOf(left, right), at)]);
      Settled(h) && HasSession(h, key, id) && (DeadSource(g, key, id, x) ==> DeadSource(h, key, id, x))
  {
  }

  /** No scope merged away while the session was resolved. */
  predicate Untangled(w: Work, cfg: Config, relay: NodeId, s: SessionReport, at: Time, o: Oracle) {
    var p := PlaceSession(w, cfg, relay, s, at, o);
    !SettlePair(p.work.graph, cfg, ScopeKey(relay, s.vni), p, at, o).tangled
  }

  lemma SettleEnds(g: Graph, cfg: Config, key: ScopeKey, id: Text, p: Placed, at: Time, o: Oracle)
    requires Fair(o) && Settled(g) && !p.tangled && HasSession(g, key, id)
    requires SessionOf(g, key, id).source == p.source.node && SessionOf(g, key, id).target == p.target.node
    requires p.target.node in g.nodes && (p.source.node in g.nodes ==> ScopesLive(g))
    requires !SettlePair(g, cfg, key, p, at, o).tangled
    ensures var r := SettlePair(g, cfg, key, p, at, o);
      var ends := EndsOf(r, key, id, p, o);
      && HasSession(r.graph, key, id)
      && (p.source.node in g.nodes ==> ScopesLive(r.graph) && ends.0 in r.graph.nodes && ends.1 in r.graph.nodes)
      && (p.source.node !in g.nodes ==> ends.0 !in r.graph.nodes)
  {
    var r := SettlePair(g, cfg, key, p, at, o);
    var x := p.source.node;
    if x != p.target.node {
      if p.source.status == Resolved && p.target.status == Resolved {
        RecordEnds(g, cfg, key, x, p.target.node, id, x, at, o);
      } else {
        ReconcileEnds(g, cfg, key, id, x, at, o);
      }
    }
    if ScopesLive(r.graph) {
      assert ScopeWithin(r.graph.scopes[key], r.graph.nodes.Keys);
    }
  }

  // ---------------------------------------------------------------------------------------------
  // The session stays where it is
  // ---------------------------------------------------------------------------------------------

  lemma MergeKeepsSession(g: Graph, keep: NodeId, remove: NodeId, o: Oracle, key: ScopeKey, id: Text)
    requires Fair(o) && WellScoped(g.scopes) && HasSession(g, key, id)
    requires key.relay !in Merge(g, keep, remove, o).redirects
    ensures HasSession(Merge(g, keep, remove, o), key, id)
  {
    if keep in g.nodes && remove in g.nodes && keep != remove {
      var h, order := Merge(g, keep, remove, o), o.scopeOrder(g.scopes);
      assert Enumerates(order, g.scopes.Keys);
      RebuiltScopesAreQuotient(g.scopes, order, keep, remove);
      var all := set k | k in order;
      assert h.scopes == RebuildScopes(g.scopes, order, keep, remove);
      assert remove in h.redirects;
      assert ScopeAtImage(h.scopes, g.scopes, all, key, keep, remove);
      assert key in ScopesTo(all, key, keep, remove);
    }
  }

  lemma MergeKeepsRedirects(g: Graph, keep: NodeId, remove: NodeId, o: Oracle)
    ensures g.redirects.Keys <= Merge(g, keep, remove, o).redirects.Keys
  {
  }

  lemma {:induction false} MergeAllKeepsSession(
    g: Graph, keep: NodeId, others: seq<NodeId>, o: Oracle, key: ScopeKey, id: Text)
    requires Fair(o) && ScopesLive(g) && HasSession(g, key, id)
    requires key.relay !in MergeAll(g, keep, others, o).redirects
    ensures HasSession(MergeAll(g, keep, others, o), key, id)
  {
    if |others| > 0 {
      var before, last := others[..|others| - 1], others[|others| - 1];
      MergeKeepsRedirects(MergeAll(g, keep, before, o), keep, last, o);
      MergeAllKeepsSession(g, keep, before, o, key, id);
      MergeAllKeepsScopesLive(g, keep, before, o);
      MergeKeepsSession(MergeAll(g, keep, before, o), keep, last, o, key, id);
    }
  }

  lemma ResolveKeepsSession(
    g: Graph, cfg: Config, identity: NodeIdentity, at: Time, o: Oracle, key: ScopeKey, id: Text)
    requires Fair(o) && ScopesLive(g) && HasSession(g, key, id)
    requires key.relay !in Resolve(g, cfg, identity, at, o).graph.redirects
    ensures HasSession(Resolve(g, cfg, identity, at, o).graph, key, id)
  {
    var i := WithoutConflict(g, identity);
    var matches := Matches(g, cfg, i, at);
    if matches != {} {
      var keep := Survivor(g, i, matches);
      ResolveRedirects(g, cfg, identity, at, o);
      MergeAllKeepsSession(g, keep, Ascending(matches - {keep}), o, key, id);
    }
  }

  lemma ClientKeepsSession(
    w: Work, cfg: Config, existing: Option<NodeId>, c: RelayClient, at: Time, o: Oracle, key: ScopeKey, id: Text)
    requires Fair(o) && ScopesLive(w.graph) && HasSession(w.graph, key, id)
    requires key.relay !in ResolveClient(w, cfg, existing, c, at, o).work.graph.redirects
    ensures HasSession(ResolveClient(w, cfg, existing, c, at, o).work.graph, key, id)
  {
    if c.identity.Some? && StatusOf(c.identity.value) == Resolved {
      var (h, r) := ResolveIn(w, cfg, c.identity.value, at, o);
      ResolveKeepsScopesLive(w.graph, cfg, c.identity.value, at, o);
      if existing.Some? {
        MergeKeepsRedirects(h.graph, r.node, existing.value, o);
      }
      ResolveKeepsSession(w.graph, cfg, c.identity.value, at, o, key, id);
      if existing.Some? {
        if existing.value != r.node {
          MergeKeepsSession(h.graph, r.node, existing.value, o, key, id);
        }
      }
    }
  }

  lemma PlaceClientKeepsSession(w: Work, cfg: Config, key: ScopeKey, id: Text, c: RelayClient, at: Time, o: Oracle)
    requires Standing(w.graph) && Fair(o) && HasSession(w.graph, key, id) && !PlaceClient(w, cfg, key, id, c, at, o).1
    ensures HasSession(PlaceClient(w, cfg, key, id, c, at, o).0.work.graph, key, id)
  {
    assert ScopeWithin(w.graph.scopes[key], w.graph.nodes.Keys);
    ClientKeepsSession(w, cfg, ClientNode(w.graph, key, id, c.id), c, at, o, key, id);
  }

  lemma PlaceSessionKeepsSession(w: Work, cfg: Config, relay: NodeId, s: SessionReport, at: Time, o: Oracle)
    requires Standing(w.graph) && Fair(o) && relay in w.graph.nodes && !PlaceSession(w, cfg, relay, s, at, o).tangled
    ensures var p := PlaceSession(w, cfg, relay, s, at, o);
      var key := ScopeKey(relay, s.vni);
      && HasSession(p.work.graph, key, s.id)
      && SessionOf(p.work.graph, key, s.id).source == p.source.node
      && SessionOf(p.work.graph, key, s.id).target == p.target.node
  {
    var key := ScopeKey(relay, s.vni);
    var entered := EnterSession(w, key, s.id, at);
    EnterStanding(w, key, s.id, at);
    PlaceClientStanding(entered, cfg, key, s.id, s.source, at, o);
    PlaceClientKeepsSession(entered, cfg, key, s.id, s.source, at, o);
    var (a, _) := PlaceClient(entered, cfg, key, s.id, s.source, at, o);
    PlaceClientKeepsSession(a.work, cfg, key, s.id, s.target, at, o);
  }

  // ---------------------------------------------------------------------------------------------
  // What it all comes to
  // ---------------------------------------------------------------------------------------------

  /** Resolving the client absorbs the node `x`: the client shows an identity, what it shows is not already the
      node `x`, and `x` either matches it or is the node that the client had. */
  predicate Swallows(g: Graph, cfg: Config, existing: Option<NodeId>, c: RelayClient, at: Time, x: NodeId) {
    && c.identity.Some? && StatusOf(c.identity.value) == Resolved
    && var i := WithoutConflict(g, c.identity.value);
       var matches := Matches(g, cfg, i, at);
       && (matches == {} || Survivor(g, i, matches) != x)
       && (x in matches || existing == Some(x))
  }

  lemma SwallowsIff(w: Work, cfg: Config, existing: Option<NodeId>, c: RelayClient, at: Time, o: Oracle, x: NodeId)
    requires Sound(w.graph) && Fair(o) && x in w.graph.nodes
    requires existing.Some? ==> existing.value in w.graph.nodes
    ensures Root(ResolveClient(w, cfg, existing, c, at, o).work.graph, x) != x
       <==> Swallows(w.graph, cfg, existing, c, at, x)
  {
    if c.identity.Some? && StatusOf(c.identity.value) == Resolved {
      ShownSwallowsIff(w.graph, cfg, existing, c, at, o, x);
      ShownMerges(w, cfg, existing, c, at, o);
    } else {
      UnshownMovesNothing(w, cfg, existing, c, at, o);
    }
  }

  lemma ShownMerges(w: Work, cfg: Config, existing: Option<NodeId>, c: RelayClient, at: Time, o: Oracle)
    requires c.identity.Some? && StatusOf(c.identity.value) == Resolved
    ensures var r := Resolve(w.graph, cfg, c.identity.value, at, o);
      ResolveClient(w, cfg, existing, c, at, o).work.graph
      == if existing.Some? && existing.value != r.node then Merge(r.graph, r.node, existing.value, o) else r.graph
  {
  }

  lemma ShownSwallowsIff(
    g: Graph, cfg: Config, existing: Option<NodeId>, c: RelayClient, at: Time, o: Oracle, x: NodeId)
    requires Sound(g) && Fair(o) && x in g.nodes && (existing.Some? ==> existing.value in g.nodes)
    requires c.identity.Some? && StatusOf(c.identity.value) == Resolved
    ensures var r := Resolve(g, cfg, c.identity.value, at, o);
      var h := if existing.Some? && existing.value != r.node then Merge(r.graph, r.node, existing.value, o)
        else r.graph;
      Root(h, x) != x <==> Swallows(g, cfg, existing, c, at, x)
  {
    var r := Resolve(g, cfg, c.identity.value, at, o);
    assert o.newId(g) !in Known(g);
    ResolveGathers(g, cfg, c.identity.value, at, x, o);
    if existing.Some? {
      ResolveKeepsSound(g, cfg, c.identity.value, at, o);
      ResolveGathers(g, cfg, c.identity.value, at, existing.value, o);
      AbsorbedWithExisting(r.graph, r.node, existing.value, x, o);
    }
  }

  /** Merging the client's earlier node, dead or alive, into the one it resolved to. */
  lemma AbsorbedWithExisting(g: Graph, node: NodeId, existing: NodeId, x: NodeId, o: Oracle)
    requires Sound(g) && node in g.nodes && existing in Known(g)
    requires Root(g, existing) == existing || Root(g, existing) == node
    ensures var h := if existing != node then Merge(g, node, existing, o) else g;
      Root(h, x) == if Root(g, existing) == existing then Repoint(Root(g, x), node, existing) else Root(g, x)
  {
    if existing != node && existing in g.nodes {
      MergeMoves(g, node, existing, x, o);
    }
  }

  lemma UnshownMovesNothing(w: Work, cfg: Config, existing: Option<NodeId>, c: RelayClient, at: Time, o: Oracle)
    requires !(c.identity.Some? && StatusOf(c.identity.value) == Resolved)
    ensures ResolveClient(w, cfg, existing, c, at, o).work.graph.redirects == w.graph.redirects
  {
  }

  /** Where the target stands when its turn comes: the graph once the source is placed, and the client's node. */
  function SourcePlaced(w: Work, cfg: Config, relay: NodeId, s: SessionReport, at: Time, o: Oracle): ClientResult {
    var key := ScopeKey(relay, s.vni);
    PlaceClient(EnterSession(w, key, s.id, at), cfg, key, s.id, s.source, at, o).0
  }

  predicate TargetSwallowsSource(w: Work, cfg: Config, relay: NodeId, s: SessionReport, at: Time, o: Oracle) {
    var a := SourcePlaced(w, cfg, relay, s, at, o);
    Swallows(a.work.graph, cfg, ClientNode(a.work.graph, ScopeKey(relay, s.vni), s.id, s.target.id),
             s.target, at, a.node)
  }

  lemma SourceStaysIff(w: Work, cfg: Config, relay: NodeId, s: SessionReport, at: Time, o: Oracle)
    requires Standing(w.graph) && Fair(o) && relay in w.graph.nodes && !PlaceSession(w, cfg, relay, s, at, o).tangled
    ensures var p := PlaceSession(w, cfg, relay, s, at, o);
      p.source.node in p.work.graph.nodes <==> !TargetSwallowsSource(w, cfg, relay, s, at, o)
  {
    var key := ScopeKey(relay, s.vni);
    EnterStanding(w, key, s.id, at);
    var entered := EnterSession(w, key, s.id, at);
    PlaceClientStanding(entered, cfg, key, s.id, s.source, at, o);
    var a := SourcePlaced(w, cfg, relay, s, at, o);
    var existing := ClientNode(a.work.graph, key, s.id, s.target.id);
    if existing.Some? {
      assert ScopeWithin(a.work.graph.scopes[key], a.work.graph.nodes.Keys);
    }
    SwallowsIff(a.work, cfg, existing, s.target, at, o, a.node);
    ClientKeepsItsNode(a.work, cfg, existing, s.target, at, o);
    PlacedAsResolved(w, cfg, relay, s, at, o);
  }

  /** Placing the target changes nodes and redirects as resolving it does. */
  lemma PlacedAsResolved(w: Work, cfg: Config, relay: NodeId, s: SessionReport, at: Time, o: Oracle)
    requires !PlaceSession(w, cfg, relay, s, at, o).tangled
    ensures var p := PlaceSession(w, cfg, relay, s, at, o);
      var a := SourcePlaced(w, cfg, relay, s, at, o);
      var existing := ClientNode(a.work.graph, ScopeKey(relay, s.vni), s.id, s.target.id);
      var resolved := ResolveClient(a.work, cfg, existing, s.target, at, o).work.graph;
      && p.source.node == a.node
      && p.work.graph.nodes == resolved.nodes && p.work.graph.redirects == resolved.redirects
  {
    var key := ScopeKey(relay, s.vni);
    var a := SourcePlaced(w, cfg, relay, s, at, o);
    var (b, _) := PlaceClient(a.work, cfg, key, s.id, s.target, at, o);
    var r := ResolveClient(a.work, cfg, ClientNode(a.work.graph, key, s.id, s.target.id), s.target, at, o);
    ClientPutOnly(r.work.graph, key, s.id, s.target.id, r.node);
    EndsPutOnly(b.work.graph, key, s, a, b);
  }

  lemma ClientPutOnly(g: Graph, key: ScopeKey, id: Text, client: Text, node: NodeId)
    ensures PutClient(g, key, id, client, node) == g.(scopes := PutClient(g, key, id, client, node).scopes)
  {
  }

  lemma EndsPutOnly(g: Graph, key: ScopeKey, s: SessionReport, a: ClientResult, b: ClientResult)
    ensures PutEnds(g, key, s, a, b) == g.(scopes := PutEnds(g, key, s, a, b).scopes)
  {
  }

  /** The ends that a session is resolved to are both live, and every scope still names live nodes only, exactly
      unless the target, when its turn comes, shows an identity that is not the source's node and either matches
      that node or is shown by a client that so far was that node. */
  lemma EndsLiveIff(w: Work, cfg: Config, relay: NodeId, s: SessionReport, at: Time, o: Oracle)
    requires Standing(w.graph) && Fair(o) && relay in w.graph.nodes && Untangled(w, cfg, relay, s, at, o)
    ensures var r := ResolveSession(w, cfg, relay, s, at, o);
      && (r.source in r.work.graph.nodes && r.target in r.work.graph.nodes
          <==> !TargetSwallowsSource(w, cfg, relay, s, at, o))
      && (!TargetSwallowsSource(w, cfg, relay, s, at, o) ==> ScopesLive(r.work.graph))
  {
    var p := PlaceSession(w, cfg, relay, s, at, o);
    var key := ScopeKey(relay, s.vni);
    UntangledPlace(p, cfg, key, at, o);
    PlaceSessionStanding(w, cfg, relay, s, at, o);
    PlaceSessionKeepsSession(w, cfg, relay, s, at, o);
    SettleEnds(p.work.graph, cfg, key, s.id, p, at, o);
    SourceStaysIff(w, cfg, relay, s, at, o);
  }

  lemma UntangledPlace(p: Placed, cfg: Config, key: ScopeKey, at: Time, o: Oracle)
    requires !SettlePair(p.work.graph, cfg, key, p, at, o).tangled
    ensures !p.tangled
  {
  }
}
