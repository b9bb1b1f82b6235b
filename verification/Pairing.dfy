/** Relay pairs (internal/aggregate/aggregator.go, relayScopeLocked, recordRelayPairLocked,
    reconcileRelayScopeLocked): which two nodes talk through a relay under a session number, and what that
    says about a client that shows no identity of its own. */
module Pairing {
  import opened Names
  import opened Canonical

  predicate Inferable(g: Graph, node: NodeId) {
    node in g.nodes && g.nodes[node].status != Resolved
  }

  predicate InPair(pair: EdgeKey, node: NodeId) {
    node == pair.source || node == pair.target
  }

  /** The other one of the pair. */
  function Complement(pair: EdgeKey, node: NodeId): NodeId {
    if node == pair.source then pair.target else pair.source
  }

  predicate SessionInferable(g: Graph, cfg: Config, pair: EdgeKey, s: RelaySession, at: Time) {
    && at - s.lastSeen <= cfg.EvidenceWindow()
    && ((InPair(pair, s.source) && !InPair(pair, s.target) && Inferable(g, s.target))
        || (InPair(pair, s.target) && !InPair(pair, s.source) && Inferable(g, s.source)))
  }

  /** The scope's pair was seen within the window, and no other since it was taken, or not within the window. */
  predicate Established(scope: RelayScope, cfg: Config, at: Time) {
    && scope.pair.Some?
    && at - scope.pairAt <= cfg.EvidenceWindow()
    && !(scope.conflictAt != NEVER && at - scope.conflictAt <= cfg.EvidenceWindow())
  }

  predicate ScopeInferable(g: Graph, cfg: Config, key: ScopeKey, at: Time) {
    && key in g.scopes && Established(g.scopes[key], cfg, at)
    && exists id | id in g.scopes[key].sessions ::
         SessionInferable(g, cfg, g.scopes[key].pair.value, g.scopes[key].sessions[id], at)
  }

  // ---------------------------------------------------------------------------------------------
  // Sessions
  // ---------------------------------------------------------------------------------------------

  /** A session before its clients are known; until its ends are set the relay stands in for them. */
  function NewSession(relay: NodeId): RelaySession {
    RelaySession(map[], EMPTY, EMPTY, relay, relay, Anonymous, Anonymous, NEVER)
  }

  predicate HasSession(g: Graph, key: ScopeKey, id: Text) {
    key in g.scopes && id in g.scopes[key].sessions
  }

  function SessionOf(g: Graph, key: ScopeKey, id: Text): RelaySession
    requires HasSession(g, key, id)
  {
    g.scopes[key].sessions[id]
  }

  function PutSession(g: Graph, key: ScopeKey, id: Text, s: RelaySession): Graph
    requires key in g.scopes
  {
    g.(scopes := g.scopes[key := g.scopes[key].(sessions := g.scopes[key].sessions[id := s])])
  }

  /** Between `g` and `h` the scope's relay was absorbed, or a relay with a scope of the same session number was
      absorbed into it: two scopes became one, and a pointer to either may refer to a discarded copy. */
  predicate Tangled(g: Graph, h: Graph, key: ScopeKey) {
    || (key.relay in h.redirects && key.relay !in g.redirects)
    || exists f | f in h.redirects ::
         f !in g.redirects && h.redirects[f] == key.relay && ScopeKey(f, key.vni) in g.scopes
  }

  // ---------------------------------------------------------------------------------------------
  // Reconciling a scope
  // ---------------------------------------------------------------------------------------------

  /** `graph` and whether anything changed. If `tangled`, the scope merged away under the loop. */
  datatype Reconciled = Reconciled(graph: Graph, changed: bool, tangled: bool)

  /** A session with one end in the pair and an unresolved node at the other: that node is the rest of the pair. */
  function CompleteSession(g: Graph, cfg: Config, key: ScopeKey, pair: EdgeKey, id: Text, at: Time,
      o: Oracle): Reconciled
  {
    if !HasSession(g, key, id) || !SessionInferable(g, cfg, pair, SessionOf(g, key, id), at)
    then Reconciled(g, false, false)
    else
      var s := SessionOf(g, key, id);
      var known := if InPair(pair, s.source) then s.source else s.target;
      var open := if InPair(pair, s.source) then s.target else s.source;
      var keep := Complement(pair, known);
      var h := Merge(g, keep, open, o);
      if Tangled(g, h, key) then Reconciled(h, true, true)
      else if !HasSession(h, key, id) then Reconciled(h, true, false)
      else
        var t := SessionOf(h, key, id);
        Reconciled(
          PutSession(h, key, id,
                     if InPair(pair, s.source) then t.(target := keep, targetStatus := Resolved)
                     else t.(source := keep, sourceStatus := Resolved)),
          true, false)
  }

  function CompleteSessions(g: Graph, cfg: Config, key: ScopeKey, pair: EdgeKey, order: seq<Text>, at: Time,
      o: Oracle): Reconciled
  {
    if |order| == 0 then Reconciled(g, false, false)
    else
      var before := CompleteSessions(g, cfg, key, pair, order[..|order| - 1], at, o);
      if before.tangled then before
      else
        var r := CompleteSession(before.graph, cfg, key, pair, order[|order| - 1], at, o);
        r.(changed := before.changed || r.changed)
  }

  /** Merges inferred from a copy of a scope that is no longer in place: some merges, in an order the oracle
      picks, but like any inferred merge each absorbs an unresolved node. */
  function MergeInferred(g: Graph, pairs: seq<(NodeId, NodeId)>, o: Oracle): Graph {
    if |pairs| == 0 then g
    else
      var before := MergeInferred(g, pairs[..|pairs| - 1], o);
      var last := pairs[|pairs| - 1];
      if Inferable(before, last.1) then Merge(before, last.0, last.1, o) else before
  }

  function AfterInference(g: Graph, o: Oracle): Graph {
    MergeInferred(g, o.inferred(g), o).(scopes := o.inferredScopes(g))
  }

  /** reconcileRelayScopeLocked: it changes something exactly when some session can be inferred. */
  function ReconcileScope(g: Graph, cfg: Config, key: ScopeKey, at: Time, o: Oracle): Reconciled {
    if !ScopeInferable(g, cfg, key, at) then Reconciled(g, false, false)
    else
      var walked := CompleteSessions(
        g, cfg, key, g.scopes[key].pair.value, o.sessionOrder(g.scopes[key].sessions), at, o);
      if walked.tangled then Reconciled(AfterInference(g, o), true, true) else Reconciled(walked.graph, true, false)
  }

  // ---------------------------------------------------------------------------------------------
  // Recording a pair
  // ---------------------------------------------------------------------------------------------

  function ScopeAt(g: Graph, key: ScopeKey, at: Time): RelayScope {
    (if key in g.scopes then g.scopes[key]
     else RelayScope(key.relay, key.vni, None, NEVER, NEVER, NEVER, map[])).(lastSeen := at)
  }

  /** A pair seen through a relay: the first, or the next after the last one lapsed, is taken; another is
      a conflict. */
  function PairedScope(scope: RelayScope, cfg: Config, pair: EdgeKey, at: Time): RelayScope {
    if scope.pairAt == NEVER || at - scope.pairAt > cfg.EvidenceWindow()
    then scope.(pair := Some(pair), pairAt := at, conflictAt := NEVER)
    else if scope.pair == Some(pair) then scope.(pairAt := at)
    else scope.(conflictAt := at)
  }

  function RecordPair(
    g: Graph, cfg: Config, relay: NodeId, vni: int, left: NodeId, right: NodeId, at: Time, o: Oracle): Reconciled
  {
    if left == right then Reconciled(g, false, false)
    else
      var key := ScopeKey(relay, vni);
      var paired := PairedScope(ScopeAt(g, key, at), cfg, EdgeOf(left, right), at);
      var r := ReconcileScope(g.(scopes := g.scopes[key := paired]), cfg, key, at, o);
      r.(changed := r.changed || key !in g.scopes)
  }

  // ---------------------------------------------------------------------------------------------
  // Whatever is inferred is a series of merges
  // ---------------------------------------------------------------------------------------------

  /** But for relay scopes, `h` is what inferred merges make of `g`. */
  ghost predicate InferredFrom(g: Graph, h: Graph, pairs: seq<(NodeId, NodeId)>, o: Oracle) {
    h == MergeInferred(g, pairs, o).(scopes := h.scopes)
  }

  lemma MergeIgnoresScopes(g: Graph, h: Graph, keep: NodeId, remove: NodeId, o: Oracle)
    requires h == g.(scopes := h.scopes)
    ensures Merge(h, keep, remove, o) == Merge(g, keep, remove, o).(scopes := Merge(h, keep, remove, o).scopes)
  {
  }

  lemma {:induction false} InferredIgnoresScopes(g: Graph, h: Graph, pairs: seq<(NodeId, NodeId)>, o: Oracle)
    requires h == g.(scopes := h.scopes)
    ensures InferredFrom(g, MergeInferred(h, pairs, o), pairs, o)
  {
    if |pairs| > 0 {
      var before, last := pairs[..|pairs| - 1], pairs[|pairs| - 1];
      InferredIgnoresScopes(g, h, before, o);
      MergeIgnoresScopes(MergeInferred(g, before, o), MergeInferred(h, before, o), last.0, last.1, o);
    }
  }

  lemma InferredOnceMore(
    g: Graph, h: Graph, pairs: seq<(NodeId, NodeId)>, keep: NodeId, remove: NodeId, o: Oracle)
    requires InferredFrom(g, h, pairs, o) && Inferable(h, remove)
    ensures InferredFrom(g, Merge(h, keep, remove, o), pairs + [(keep, remove)], o)
  {
    assert (pairs + [(keep, remove)])[..|pairs|] == pairs;
    MergeIgnoresScopes(MergeInferred(g, pairs, o), h, keep, remove, o);
  }

  lemma CompletedIsInferred(
    g: Graph, h: Graph, pairs: seq<(NodeId, NodeId)>, cfg: Config, key: ScopeKey, pair: EdgeKey, id: Text, at: Time,
    o: Oracle)
    returns (longer: seq<(NodeId, NodeId)>)
    requires InferredFrom(g, h, pairs, o)
    ensures InferredFrom(g, CompleteSession(h, cfg, key, pair, id, at, o).graph, longer, o)
  {
    longer := pairs;
    if HasSession(h, key, id) && SessionInferable(h, cfg, pair, SessionOf(h, key, id), at) {
      var s := SessionOf(h, key, id);
      var keep, remove :=
        Complement(pair, if InPair(pair, s.source) then s.source else s.target),
        if InPair(pair, s.source) then s.target else s.source;
      InferredOnceMore(g, h, pairs, keep, remove, o);
      longer := pairs + [(keep, remove)];
    }
  }

  lemma {:induction false} WalkIsInferred(
    g: Graph, cfg: Config, key: ScopeKey, pair: EdgeKey, order: seq<Text>, at: Time, o: Oracle)
    returns (pairs: seq<(NodeId, NodeId)>)
    ensures InferredFrom(g, CompleteSessions(g, cfg, key, pair, order, at, o).graph, pairs, o)
  {
    pairs := [];
    if |order| > 0 {
      pairs := WalkIsInferred(g, cfg, key, pair, order[..|order| - 1], at, o);
      var before := CompleteSessions(g, cfg, key, pair, order[..|order| - 1], at, o);
      if !before.tangled {
        pairs := CompletedIsInferred(g, before.graph, pairs, cfg, key, pair, order[|order| - 1], at, o);
      }
    }
  }

  lemma ReconciledIsInferred(g: Graph, cfg: Config, key: ScopeKey, at: Time, o: Oracle)
    returns (pairs: seq<(NodeId, NodeId)>)
    ensures InferredFrom(g, ReconcileScope(g, cfg, key, at, o).graph, pairs, o)
  {
    pairs := [];
    if ScopeInferable(g, cfg, key, at) {
      var pair, order := g.scopes[key].pair.value, o.sessionOrder(g.scopes[key].sessions);
      if CompleteSessions(g, cfg, key, pair, order, at, o).tangled {
        pairs := o.inferred(g);
      } else {
        pairs := WalkIsInferred(g, cfg, key, pair, order, at, o);
      }
    }
  }

  lemma RecordedIsInferred(
    g: Graph, cfg: Config, relay: NodeId, vni: int, left: NodeId, right: NodeId, at: Time, o: Oracle)
    returns (pairs: seq<(NodeId, NodeId)>)
    ensures InferredFrom(g, RecordPair(g, cfg, relay, vni, left, right, at, o).graph, pairs, o)
  {
    pairs := [];
    if left != right {
      var key := ScopeKey(relay, vni);
      var h := g.(scopes := g.scopes[key := PairedScope(ScopeAt(g, key, at), cfg, EdgeOf(left, right), at)]);
      pairs := ReconciledIsInferred(h, cfg, key, at, o);
      InferredIgnoresScopes(g, h, pairs, o);
    }
  }
}
