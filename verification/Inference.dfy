/** What may be inferred from a relay pair (reconcileRelayScopeLocked): which nodes are absorbed, what becomes of
    the sessions, and that the pair itself is left alone. */
module Inference {
  import opened Names
  import opened Canonical
  import opened Invariants
  import opened Pairing
  import opened ScopeQuotient

  // ---------------------------------------------------------------------------------------------
  // Which nodes are absorbed
  // ---------------------------------------------------------------------------------------------

  /** Every node with an identity of its own is still there, with an identity of its own, and no node is new. */
  ghost predicate SparesResolved(g: Graph, h: Graph) {
    && (forall n | n in g.nodes && g.nodes[n].status == Resolved :: n in h.nodes && h.nodes[n].status == Resolved)
    && h.nodes.Keys <= g.nodes.Keys
  }

  lemma MergeSparesResolved(g: Graph, keep: NodeId, remove: NodeId, o: Oracle)
    requires Inferable(g, remove)
    ensures SparesResolved(g, Merge(g, keep, remove, o))
  {
    if keep in g.nodes && keep != remove {
      var h := Merge(g, keep, remove, o);
      assert h.nodes == (g.nodes - {remove})[keep := MergeNode(g.nodes[keep], g.nodes[remove])];
    }
  }

  lemma {:induction false} InferredSparesResolved(g: Graph, h: Graph, pairs: seq<(NodeId, NodeId)>, o: Oracle)
    requires InferredFrom(g, h, pairs, o)
    ensures SparesResolved(g, h)
    decreases |pairs|
  {
    if |pairs| > 0 {
      var before, last := pairs[..|pairs| - 1], pairs[|pairs| - 1];
      InferredSparesResolved(g, MergeInferred(g, before, o), before, o);
      if Inferable(MergeInferred(g, before, o), last.1) {
        MergeSparesResolved(MergeInferred(g, before, o), last.0, last.1, o);
      }
    }
  }

  /** Inference never absorbs a node that has an identity of its own, whatever scopes merge away meanwhile. */
  lemma ReconcileSparesResolved(g: Graph, cfg: Config, key: ScopeKey, at: Time, o: Oracle)
    ensures SparesResolved(g, ReconcileScope(g, cfg, key, at, o).graph)
  {
    var pairs := ReconciledIsInferred(g, cfg, key, at, o);
    InferredSparesResolved(g, ReconcileScope(g, cfg, key, at, o).graph, pairs, o);
  }

  // ---------------------------------------------------------------------------------------------
  // What becomes of the sessions
  // ---------------------------------------------------------------------------------------------

  ghost predicate Settled(g: Graph) {
    Compressed(g.nodes.Keys, g.redirects) && WellScoped(g.scopes)
  }

  /** The session's ends are in the pair, or would be once inferred. */
  predicate Due(g: Graph, cfg: Config, pair: EdgeKey, s: RelaySession, at: Time) {
    && at - s.lastSeen <= cfg.EvidenceWindow()
    && (InPair(pair, s.source) || InPair(pair, s.target))
    && (InPair(pair, s.source) || Inferable(g, s.source))
    && (InPair(pair, s.target) || Inferable(g, s.target))
  }

  predicate Complete(pair: EdgeKey, s: RelaySession) {
    InPair(pair, s.source) && InPair(pair, s.target)
  }

  /** The scope's own record is what it was; only its sessions' ends may have changed. */
  ghost predicate SameScope(a: RelayScope, b: RelayScope) {
    && b.pair == a.pair && b.pairAt == a.pairAt && b.conflictAt == a.conflictAt && b.lastSeen == a.lastSeen
    && b.sessions.Keys == a.sessions.Keys
  }

  /** After some sessions were visited: those among them are complete, the others still due. */
  ghost predicate Walked(
    g: Graph, h: Graph, cfg: Config, key: ScopeKey, pair: EdgeKey, visited: seq<Text>, at: Time)
    requires key in g.scopes
  {
    && Settled(h) && key in h.scopes && SameScope(g.scopes[key], h.scopes[key])
    && forall id | id in g.scopes[key].sessions && SessionInferable(g, cfg, pair, g.scopes[key].sessions[id], at) ::
         && Due(h, cfg, pair, h.scopes[key].sessions[id], at)
         && (id in visited ==> Complete(pair, h.scopes[key].sessions[id]))
  }

  lemma MergeMovesScope(h: Graph, key: ScopeKey, pair: EdgeKey, keep: NodeId, open: NodeId, o: Oracle)
    requires Fair(o) && Settled(h) && key in h.scopes && h.scopes[key].pair == Some(pair)
    requires !InPair(pair, open) && open in h.nodes && !Tangled(h, Merge(h, keep, open, o), key)
    ensures var m := Merge(h, keep, open, o);
      && Settled(m) && key in m.scopes && SameScope(h.scopes[key], m.scopes[key])
      && m.scopes[key].sessions ==
           if keep in h.nodes && keep != open then RepointScope(h.scopes[key], keep, open).sessions
           else h.scopes[key].sessions
  {
    if keep in h.nodes && keep != open {
      UntangledMerge(h, key, keep, open, o);
      MergeSettles(h, keep, open, o);
      ScopeMoves(h.scopes, o.scopeOrder(h.scopes), key, keep, open, o);
      RepointedScopeIsSame(h.scopes[key], pair, keep, open);
    }
  }

  lemma MergeSettles(h: Graph, keep: NodeId, open: NodeId, o: Oracle)
    requires Fair(o) && Settled(h) && keep in h.nodes && open in h.nodes && keep != open
    ensures Settled(Merge(h, keep, open, o))
  {
    var m, order := Merge(h, keep, open, o), o.scopeOrder(h.scopes);
    assert Enumerates(order, h.scopes.Keys);
    ScopesNameSurvivors(h.scopes, order, keep, open);
    RepointKeepsCompressed(h.nodes.Keys, h.redirects, keep, open);
    MergedNames(h, keep, open, o);
  }

  lemma MergedNames(h: Graph, keep: NodeId, open: NodeId, o: Oracle)
    requires keep in h.nodes && open in h.nodes && keep != open
    ensures var m := Merge(h, keep, open, o);
      && m.nodes.Keys == h.nodes.Keys - {open} && m.redirects == RepointRedirects(h.redirects, keep, open)
      && m.scopes == RebuildScopes(h.scopes, o.scopeOrder(h.scopes), keep, open)
  {
  }

  lemma ScopeMoves(
    scopes: map<ScopeKey, RelayScope>, order: seq<ScopeKey>, key: ScopeKey, keep: NodeId, open: NodeId, o: Oracle)
    requires Fair(o) && order == o.scopeOrder(scopes) && WellScoped(scopes) && key in scopes
    requires key.relay != open && !(key.relay == keep && ScopeKey(open, key.vni) in scopes)
    ensures var rebuilt := RebuildScopes(scopes, order, keep, open);
      key in rebuilt && rebuilt[key] == RepointScope(scopes[key], keep, open)
  {
    assert Enumerates(order, scopes.Keys);
    ScopeMovesAlone(scopes, order, key, keep, open);
  }

  lemma RepointedScopeIsSame(scope: RelayScope, pair: EdgeKey, keep: NodeId, open: NodeId)
    requires scope.pair == Some(pair) && pair.source <= pair.target && !InPair(pair, open)
    ensures SameScope(scope, RepointScope(scope, keep, open))
  {
  }

  /** A merge that leaves the scope's relay apart. */
  lemma UntangledMerge(h: Graph, key: ScopeKey, keep: NodeId, open: NodeId, o: Oracle)
    requires Compressed(h.nodes.Keys, h.redirects) && keep in h.nodes && open in h.nodes && keep != open
    requires !Tangled(h, Merge(h, keep, open, o), key)
    ensures key.relay != open && !(key.relay == keep && ScopeKey(open, key.vni) in h.scopes)
    ensures Merge(h, keep, open, o).scopes == RebuildScopes(h.scopes, o.scopeOrder(h.scopes), keep, open)
  {
    var m := Merge(h, keep, open, o);
    MergedNames(h, keep, open, o);
    assert open !in h.redirects && open in m.redirects && m.redirects[open] == keep;
  }

  lemma MergeKeepsDue(h: Graph, cfg: Config, pair: EdgeKey, s: RelaySession, keep: NodeId, open: NodeId, at: Time,
      o: Oracle)
    requires InPair(pair, keep) && !InPair(pair, open) && keep in h.nodes && open in h.nodes
    requires Due(h, cfg, pair, s, at)
    ensures Due(Merge(h, keep, open, o), cfg, pair, RepointSession(s, keep, open), at)
    ensures Complete(pair, s) ==> Complete(pair, RepointSession(s, keep, open))
  {
    var m := Merge(h, keep, open, o);
    assert m.nodes == (h.nodes - {open})[keep := MergeNode(h.nodes[keep], h.nodes[open])];
  }

  lemma WalkOn(
    g: Graph, h: Graph, cfg: Config, key: ScopeKey, pair: EdgeKey, visited: seq<Text>, id: Text, at: Time, o: Oracle)
    requires Fair(o) && key in g.scopes && g.scopes[key].pair == Some(pair) && Walked(g, h, cfg, key, pair, visited, at)
    requires !CompleteSession(h, cfg, key, pair, id, at, o).tangled
    ensures Walked(g, CompleteSession(h, cfg, key, pair, id, at, o).graph, cfg, key, pair, visited + [id], at)
  {
    if HasSession(h, key, id) && SessionInferable(h, cfg, pair, SessionOf(h, key, id), at) {
      var s := SessionOf(h, key, id);
      var keep, open :=
        Complement(pair, if InPair(pair, s.source) then s.source else s.target),
        if InPair(pair, s.source) then s.target else s.source;
      MergeMovesScope(h, key, pair, keep, open, o);
      var m := Merge(h, keep, open, o);
      forall j | j in g.scopes[key].sessions && SessionInferable(g, cfg, pair, g.scopes[key].sessions[j], at)
        ensures Due(m, cfg, pair, m.scopes[key].sessions[j], at)
        ensures Complete(pair, h.scopes[key].sessions[j]) ==> Complete(pair, m.scopes[key].sessions[j])
      {
        if keep in h.nodes {
          MergeKeepsDue(h, cfg, pair, h.scopes[key].sessions[j], keep, open, at, o);
        }
      }
      SetEndKeeps(g, m, cfg, key, pair, visited, id, keep, InPair(pair, s.source), at);
    }
  }

  lemma SetEndKeeps(
    g: Graph, m: Graph, cfg: Config, key: ScopeKey, pair: EdgeKey, visited: seq<Text>, id: Text, keep: NodeId,
    target: bool, at: Time)
    requires key in g.scopes && Walked(g, m, cfg, key, pair, visited, at) && HasSession(m, key, id)
      && InPair(pair, keep)
    requires InPair(pair, if target then SessionOf(m, key, id).source else SessionOf(m, key, id).target)
    ensures var t := SessionOf(m, key, id);
      Walked(g, PutSession(m, key, id, if target then t.(target := keep, targetStatus := Resolved)
                                       else t.(source := keep, sourceStatus := Resolved)),
             cfg, key, pair, visited + [id], at)
  {
  }

  lemma {:induction false} WalkCompletes(
    g: Graph, cfg: Config, key: ScopeKey, pair: EdgeKey, order: seq<Text>, at: Time, o: Oracle)
    requires Fair(o) && Settled(g) && key in g.scopes && g.scopes[key].pair == Some(pair)
    requires !CompleteSessions(g, cfg, key, pair, order, at, o).tangled
    ensures Walked(g, CompleteSessions(g, cfg, key, pair, order, at, o).graph, cfg, key, pair, order, at)
  {
    if |order| > 0 {
      var before, last := order[..|order| - 1], order[|order| - 1];
      assert before + [last] == order;
      WalkCompletes(g, cfg, key, pair, before, at, o);
      WalkOn(g, CompleteSessions(g, cfg, key, pair, before, at, o).graph, cfg, key, pair, before, last, at, o);
    }
  }

  /** Whatever order the sessions are visited in: every recent session with one end in an established pair and an
      unresolved node at the other has both its ends in the pair, and the pair is what it was. */
  lemma ReconcileCompletes(g: Graph, cfg: Config, key: ScopeKey, at: Time, o: Oracle)
    requires Fair(o) && Settled(g) && key in g.scopes && !ReconcileScope(g, cfg, key, at, o).tangled
    ensures var h := ReconcileScope(g, cfg, key, at, o).graph;
      && Settled(h) && key in h.scopes && SameScope(g.scopes[key], h.scopes[key])
      && (Established(g.scopes[key], cfg, at) ==>
            forall id | id in g.scopes[key].sessions
                        && SessionInferable(g, cfg, g.scopes[key].pair.value, g.scopes[key].sessions[id], at) ::
              Complete(g.scopes[key].pair.value, h.scopes[key].sessions[id]))
  {
    if ScopeInferable(g, cfg, key, at) {
      var order := o.sessionOrder(g.scopes[key].sessions);
      assert Enumerates(order, g.scopes[key].sessions.Keys);
      WalkCompletes(g, cfg, key, g.scopes[key].pair.value, order, at, o);
    }
  }

  /** Recording a pair: what is inferred from it leaves the record alone. The pair stays while it is fresh, another
      is noted as a rival, and only a pair that lapsed is replaced. */
  lemma RecordedPair(
    g: Graph, cfg: Config, relay: NodeId, vni: int, left: NodeId, right: NodeId, at: Time, o: Oracle)
    requires Fair(o) && Settled(g) && left != right && !RecordPair(g, cfg, relay, vni, left, right, at, o).tangled
    ensures var h := RecordPair(g, cfg, relay, vni, left, right, at, o).graph;
      var key, pair := ScopeKey(relay, vni), EdgeOf(left, right);
      var before := ScopeAt(g, key, at);
      var lapsed := before.pairAt == NEVER || at - before.pairAt > cfg.EvidenceWindow();
      && Settled(h) && key in h.scopes && h.scopes[key].sessions.Keys == before.sessions.Keys
      && (h.scopes[key].pair == Some(pair) <==> lapsed || before.pair == Some(pair))
      && (h.scopes[key].pair == before.pair || lapsed)
      && h.scopes[key].pairAt == (if h.scopes[key].pair == Some(pair) then at else before.pairAt)
      && h.scopes[key].conflictAt ==
           if lapsed then NEVER else if before.pair == Some(pair) then before.conflictAt else at
  {
    var key := ScopeKey(relay, vni);
    var h := g.(scopes := g.scopes[key := PairedScope(ScopeAt(g, key, at), cfg, EdgeOf(left, right), at)]);
    assert Settled(h);
    ReconcileCompletes(h, cfg, key, at, o);
  }
}
