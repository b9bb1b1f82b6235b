/** Reports that show that the exceptions are real: from the empty graph one relay update is enough for an edge with
    a dead end, for a tie between relays, and for a report that fails. */
module Witnesses {
  import opened Names
  import opened Evidence
  import opened Admission
  import opened Canonical
  import opened Invariants
  import opened Quotient
  import opened Pairing
  import opened ScopeQuotient
  import opened Reports
  import opened DeviceDirectory
  import opened RelayLaws
  import opened Lifecycle

  function Shown(id: Text, stable: Text): RelayClient {
    RelayClient(id, Some(OnlyStable(stable)), EMPTY)
  }

  function Unshown(id: Text): RelayClient {
    RelayClient(id, None, EMPTY)
  }

  /** A second of traffic between two clients of a relay. */
  function Carries(relay: Text, source: RelayClient, target: RelayClient, id: Text, vni: int, bytes: nat): SessionReport
  {
    SessionReport(OnlyStable(relay), source, target, id, vni, bytes, 0, 1000)
  }

  /** The first envelope of a reporter. */
  function RelayReport(reporter: ReporterId, at: Time, sessions: seq<SessionReport>): Report {
    Report(1, reporter, 1, at, RelayUpdate, [], sessions)
  }

  // ---------------------------------------------------------------------------------------------
  // Steps that merge nothing
  // ---------------------------------------------------------------------------------------------

  /** Nothing has been merged, and aliases name live nodes. */
  ghost predicate Tame(g: Graph) {
    g.redirects == map[] && NamesOnly(g.aliases, g.nodes.Keys)
  }

  ghost predicate SameRest(g: Graph, h: Graph) {
    h.redirects == g.redirects && h.edges == g.edges && h.scopes == g.scopes
  }

  /** From `g` to `h` a stable ID was looked up, or bound to a new node. */
  ghost predicate Met(g: Graph, h: Graph, stable: Text, node: NodeId) {
    && Tame(h)
    && h.aliases == g.aliases[StableAlias(stable) := node] && h.nodes.Keys == g.nodes.Keys + {node}
    && if StableAlias(stable) in g.aliases then g.aliases[StableAlias(stable)] == node else node !in g.nodes
  }

  lemma KnownStableMatches(g: Graph, cfg: Config, stable: Text, at: Time)
    requires Named(stable) && StableAlias(stable) in g.aliases
    ensures Matches(g, cfg, OnlyStable(stable), at) == {g.aliases[StableAlias(stable)]}
    ensures WithoutConflict(g, OnlyStable(stable)) == OnlyStable(stable)
  {
    assert StrongAliases(OnlyStable(stable)) == [StableAlias(stable)];
    assert AddressAliases(OnlyStable(stable)) == [];
  }

  lemma StableMet(g: Graph, cfg: Config, stable: Text, at: Time, o: Oracle)
    requires Fair(o) && Tame(g) && Named(stable)
    ensures var r := Resolve(g, cfg, OnlyStable(stable), at, o);
      SameRest(g, r.graph) && Met(g, r.graph, stable, r.node)
  {
    var i := OnlyStable(stable);
    if StableAlias(stable) in g.aliases {
      KnownStableMatches(g, cfg, stable, at);
      var keep := g.aliases[StableAlias(stable)];
      assert Ascending({keep} - {keep}) == [];
      KnownBound(g, i, stable, keep, at);
    } else {
      AllocatedNode(g, cfg, stable, at, o);
      assert o.newId(g) !in Known(g);
      FreshRest(g, cfg, stable, at, o);
    }
  }

  lemma KnownBound(g: Graph, i: NodeIdentity, stable: Text, node: NodeId, at: Time)
    requires Tame(g) && Named(stable) && i == OnlyStable(stable)
    requires StableAlias(stable) in g.aliases && g.aliases[StableAlias(stable)] == node
    ensures var h := BindAliases(AbsorbIdentity(g, node, i), i, node, at);
      SameRest(g, h) && Met(g, h, stable, node)
  {
    assert StrongAliases(i) == [StableAlias(stable)];
    assert AddressAliases(i) == [];
    assert AbsorbIdentity(g, node, i).nodes.Keys == g.nodes.Keys;
  }

  lemma FreshRest(g: Graph, cfg: Config, stable: Text, at: Time, o: Oracle)
    requires StableAlias(stable) !in g.aliases && Named(stable)
    ensures SameRest(g, Resolve(g, cfg, OnlyStable(stable), at, o).graph)
  {
    var i := OnlyStable(stable);
    assert StrongAliases(i) == [StableAlias(stable)];
    assert AddressAliases(i) == [];
    assert Matches(g, cfg, WithoutConflict(g, i), at) == {};
  }

  /** Noting when a node was seen, and by whom. */
  ghost predicate SameNames(g: Graph, h: Graph) {
    h.aliases == g.aliases && h.nodes.Keys == g.nodes.Keys && SameRest(g, h)
  }

  lemma CollectedNames(g: Graph, node: NodeId, collectedAt: Time)
    ensures SameNames(g, TouchCollected(g, node, collectedAt))
  {
  }

  lemma PeerNames(g: Graph, node: NodeId, at: Time)
    ensures SameNames(g, TouchPeer(g, node, at))
  {
  }

  lemma ClaimedNames(g: Graph, node: NodeId, collectedAt: Time, reporter: ReporterId, at: Time)
    ensures SameNames(g, Claim(TouchObserver(g, node, collectedAt, at), reporter, node))
  {
    ObserverNames(g, node, collectedAt, at);
    ClaimNames(TouchObserver(g, node, collectedAt, at), reporter, node);
  }

  lemma ObserverNames(g: Graph, node: NodeId, collectedAt: Time, at: Time)
    ensures SameNames(g, TouchObserver(g, node, collectedAt, at))
  {
  }

  lemma ClaimNames(g: Graph, reporter: ReporterId, node: NodeId)
    ensures SameNames(g, Claim(g, reporter, node))
  {
  }

  lemma RelayMet(w: Work, cfg: Config, report: Report, s: SessionReport, stable: Text, at: Time, o: Oracle)
    requires Fair(o) && Tame(w.graph) && Named(stable) && s.relay == OnlyStable(stable)
    ensures var (h, relay) := RelayArrive(w, cfg, report, s, at, o);
      && SameRest(w.graph, h.graph) && Met(w.graph, h.graph, stable, relay) && h.touched == w.touched
  {
    StableMet(w.graph, cfg, stable, at, o);
    var r := Resolve(w.graph, cfg, s.relay, at, o);
    CollectedNames(r.graph, r.node, report.collectedAt);
    var collected := TouchCollected(r.graph, r.node, report.collectedAt);
    ClaimedNames(collected, r.node, report.collectedAt, report.reporter, at);
  }

  /** A client that shows the identity it had, or had none. */
  lemma ClientMet(w: Work, cfg: Config, existing: Option<NodeId>, id: Text, stable: Text, at: Time, o: Oracle)
    requires Fair(o) && Tame(w.graph) && Named(stable)
    requires existing.Some? ==>
      StableAlias(stable) in w.graph.aliases && w.graph.aliases[StableAlias(stable)] == existing.value
    ensures var r := ResolveClient(w, cfg, existing, Shown(id, stable), at, o);
      && SameRest(w.graph, r.work.graph) && Met(w.graph, r.work.graph, stable, r.node)
      && r.status == Resolved && r.work.touched == w.touched
  {
    assert StrongAliases(OnlyStable(stable)) == [StableAlias(stable)];
    StableMet(w.graph, cfg, stable, at, o);
  }

  /** From `g` to `h` a client of the session was placed. */
  ghost predicate ClientPut(g: Graph, h: Graph, key: ScopeKey, id: Text, client: Text, node: NodeId) {
    && HasSession(g, key, id) && h.redirects == g.redirects && h.edges == g.edges
    && h.scopes == PutSession(g, key, id, SessionOf(g, key, id).(
         clients := SessionOf(g, key, id).clients[client := node])).scopes
  }

  /** Placing a client that was resolved without a merge. */
  lemma QuietlyPlaced(w: Work, cfg: Config, key: ScopeKey, id: Text, c: RelayClient, at: Time, o: Oracle)
    requires HasSession(w.graph, key, id)
    requires SameRest(w.graph, ResolveClient(w, cfg, ClientNode(w.graph, key, id, c.id), c, at, o).work.graph)
    ensures var r := ResolveClient(w, cfg, ClientNode(w.graph, key, id, c.id), c, at, o);
      var (p, tangled) := PlaceClient(w, cfg, key, id, c, at, o);
      && !tangled && p.node == r.node && p.status == r.status && p.work.touched == r.work.touched
      && p.work.graph.aliases == r.work.graph.aliases && p.work.graph.nodes == r.work.graph.nodes
      && ClientPut(w.graph, p.work.graph, key, id, c.id, r.node)
  {
    var r := ResolveClient(w, cfg, ClientNode(w.graph, key, id, c.id), c, at, o);
    NothingTangled(w.graph, r.work.graph, key);
    ClientPutOnly(r.work.graph, key, id, c.id, r.node);
  }

  lemma NothingTangled(g: Graph, h: Graph, key: ScopeKey)
    requires h.redirects == g.redirects
    ensures !Tangled(g, h, key)
  {
  }

  lemma ClientPlaced(w: Work, cfg: Config, key: ScopeKey, id: Text, client: Text, stable: Text, at: Time, o: Oracle)
    requires Fair(o) && Tame(w.graph) && Named(stable) && HasSession(w.graph, key, id)
    requires var existing := ClientNode(w.graph, key, id, client);
      existing.Some? ==>
        StableAlias(stable) in w.graph.aliases && w.graph.aliases[StableAlias(stable)] == existing.value
    ensures var (r, tangled) := PlaceClient(w, cfg, key, id, Shown(client, stable), at, o);
      && !tangled && r.status == Resolved && r.work.touched == w.touched
      && Met(w.graph, r.work.graph, stable, r.node) && ClientPut(w.graph, r.work.graph, key, id, client, r.node)
  {
    ClientMet(w, cfg, ClientNode(w.graph, key, id, client), client, stable, at, o);
    QuietlyPlaced(w, cfg, key, id, Shown(client, stable), at, o);
  }

  lemma Entered(w: Work, key: ScopeKey, id: Text, at: Time)
    requires key !in w.graph.scopes
    ensures var h := EnterSession(w, key, id, at);
      && h.touched == w.touched && h.graph == w.graph.(scopes := h.graph.scopes)
      && h.graph.scopes.Keys == w.graph.scopes.Keys + {key}
      && Opened(h.graph.scopes[key], key, id, map[])
  {
  }

  /** From `g` to `h` two stable IDs were met. */
  ghost predicate BothMet(g: Graph, h: Graph, s: Text, a: NodeId, t: Text, b: NodeId) {
    && Tame(h) && h.redirects == g.redirects && h.edges == g.edges
    && h.aliases == g.aliases[StableAlias(s) := a][StableAlias(t) := b]
    && h.nodes.Keys == g.nodes.Keys + {a, b}
    && (if StableAlias(s) in g.aliases then g.aliases[StableAlias(s)] == a else a !in g.nodes)
    && (if StableAlias(t) in g.aliases then g.aliases[StableAlias(t)] == b
        else if s == t then a == b else b !in g.nodes && b != a)
  }

  lemma MetTwice(g: Graph, m: Graph, h: Graph, s: Text, a: NodeId, t: Text, b: NodeId)
    requires Tame(g) && Met(g, m, s, a) && Met(m, h, t, b)
    requires h.redirects == m.redirects == g.redirects && h.edges == m.edges == g.edges
    ensures BothMet(g, h, s, a, t, b)
  {
  }

  /** The one session of a scope without a pair, before its ends are known. */
  ghost predicate Opened(scope: RelayScope, key: ScopeKey, id: Text, clients: map<Text, NodeId>) {
    && scope.sessions.Keys == {id} && scope.sessions[id].clients == clients
    && ScopeKey(scope.relay, scope.vni) == key && scope.pair.None? && scope.pairAt == NEVER
  }

  lemma OpenedOn(
    g: Graph, h: Graph, key: ScopeKey, id: Text, clients: map<Text, NodeId>, client: Text, node: NodeId)
    requires key in g.scopes && Opened(g.scopes[key], key, id, clients) && ClientPut(g, h, key, id, client, node)
    ensures h.scopes.Keys == g.scopes.Keys && Opened(h.scopes[key], key, id, clients[client := node])
  {
  }

  /** Both clients placed on a new session. */
  ghost predicate FreshPlaced(w: Work, p: Placed, key: ScopeKey, id: Text, c: Text, s: Text, d: Text, t: Text) {
    var g, a, b := p.work.graph, p.source.node, p.target.node;
    && !p.tangled && p.source.status == Resolved && p.target.status == Resolved && p.work.touched == w.touched
    && BothMet(w.graph, g, s, a, t, b)
    && g.scopes.Keys == w.graph.scopes.Keys + {key}
    && Opened(g.scopes[key], key, id, map[c := a, d := b])
    && g.scopes[key].sessions[id].source == a && g.scopes[key].sessions[id].target == b
  }

  lemma EndsPut(g: Graph, key: ScopeKey, s: SessionReport, clients: map<Text, NodeId>, a: ClientResult, b: ClientResult)
    requires key in g.scopes && Opened(g.scopes[key], key, s.id, clients)
    ensures var h := PutEnds(g, key, s, a, b);
      && h == g.(scopes := h.scopes) && h.scopes.Keys == g.scopes.Keys && Opened(h.scopes[key], key, s.id, clients)
      && h.scopes[key].sessions[s.id].source == a.node && h.scopes[key].sessions[s.id].target == b.node
  {
  }

  ghost predicate BothPlaced(
    w: Work, a: ClientResult, b: ClientResult, key: ScopeKey, id: Text, c: Text, s: Text, d: Text, t: Text)
  {
    var h := b.work.graph;
    && a.status == Resolved && b.status == Resolved && b.work.touched == w.touched
    && BothMet(w.graph, h, s, a.node, t, b.node)
    && h.scopes.Keys == w.graph.scopes.Keys
    && key in h.scopes && Opened(h.scopes[key], key, id, map[c := a.node, d := b.node])
  }

  lemma ClientsPlaced(
    w: Work, cfg: Config, key: ScopeKey, id: Text, c: Text, s: Text, d: Text, t: Text, at: Time, o: Oracle)
    requires Fair(o) && Tame(w.graph) && Named(s) && Named(t) && c != d
    requires key in w.graph.scopes && Opened(w.graph.scopes[key], key, id, map[])
    ensures var (a, lost) := PlaceClient(w, cfg, key, id, Shown(c, s), at, o);
      var (b, gone) := PlaceClient(a.work, cfg, key, id, Shown(d, t), at, o);
      !lost && !gone && BothPlaced(w, a, b, key, id, c, s, d, t)
  {
    NewClientPlaced(w, cfg, key, id, map[], c, s, at, o);
    var (a, _) := PlaceClient(w, cfg, key, id, Shown(c, s), at, o);
    NewClientPlaced(a.work, cfg, key, id, map[c := a.node], d, t, at, o);
    var (b, _) := PlaceClient(a.work, cfg, key, id, Shown(d, t), at, o);
    MetTwice(w.graph, a.work.graph, b.work.graph, s, a.node, t, b.node);
  }

  /** A client of an open session that has no node yet. */
  ghost predicate NewPlaced(
    w: Work, r: ClientResult, key: ScopeKey, id: Text, clients: map<Text, NodeId>, client: Text, stable: Text)
  {
    && r.status == Resolved && r.work.touched == w.touched && Met(w.graph, r.work.graph, stable, r.node)
    && r.work.graph.redirects == w.graph.redirects && r.work.graph.edges == w.graph.edges
    && r.work.graph.scopes.Keys == w.graph.scopes.Keys && key in r.work.graph.scopes
    && Opened(r.work.graph.scopes[key], key, id, clients[client := r.node])
  }

  lemma NewClientPlaced(
    w: Work, cfg: Config, key: ScopeKey, id: Text, clients: map<Text, NodeId>, client: Text, stable: Text, at: Time,
    o: Oracle)
    requires Fair(o) && Tame(w.graph) && Named(stable) && client !in clients
    requires key in w.graph.scopes && Opened(w.graph.scopes[key], key, id, clients)
    ensures var (r, tangled) := PlaceClient(w, cfg, key, id, Shown(client, stable), at, o);
      !tangled && NewPlaced(w, r, key, id, clients, client, stable)
  {
    ClientPlaced(w, cfg, key, id, client, stable, at, o);
    var (r, _) := PlaceClient(w, cfg, key, id, Shown(client, stable), at, o);
    OpenedOn(w.graph, r.work.graph, key, id, clients, client, r.node);
  }

  /** The first session of a scope, both clients showing an identity. */
  lemma SessionPlaced(
    w: Work, cfg: Config, relay: NodeId, name: Text, c: Text, s: Text, d: Text, t: Text, id: Text, vni: int, bytes: nat,
    at: Time, o: Oracle)
    requires Fair(o) && Tame(w.graph) && Named(s) && Named(t) && c != d && ScopeKey(relay, vni) !in w.graph.scopes
    ensures var session := Carries(name, Shown(c, s), Shown(d, t), id, vni, bytes);
      FreshPlaced(w, PlaceSession(w, cfg, relay, session, at, o), ScopeKey(relay, vni), id, c, s, d, t)
  {
    var key := ScopeKey(relay, vni);
    var session := Carries(name, Shown(c, s), Shown(d, t), id, vni, bytes);
    var entered := EnterSession(w, key, id, at);
    Entered(w, key, id, at);
    ClientsPlaced(entered, cfg, key, id, c, s, d, t, at, o);
    var (a, _) := PlaceClient(entered, cfg, key, id, Shown(c, s), at, o);
    var (b, _) := PlaceClient(a.work, cfg, key, id, Shown(d, t), at, o);
    EndsPut(b.work.graph, key, session, map[c := a.node, d := b.node], a, b);
  }

  /** A pair that is all the scope knows settles nothing else. */
  lemma PairSettled(
    g: Graph, cfg: Config, key: ScopeKey, id: Text, clients: map<Text, NodeId>, p: Placed, at: Time, o: Oracle)
    requires !p.tangled && p.source.status == Resolved && p.target.status == Resolved && p.source.node != p.target.node
    requires key in g.scopes && Opened(g.scopes[key], key, id, clients)
    requires g.scopes[key].sessions[id].source == p.source.node && g.scopes[key].sessions[id].target == p.target.node
    ensures var r := SettlePair(g, cfg, key, p, at, o);
      && !r.tangled && r.graph == g.(scopes := r.graph.scopes) && r.graph.scopes.Keys == g.scopes.Keys
      && Paired(r.graph.scopes[key], key, id, clients, p.source.node, p.target.node)
      && EndsOf(r, key, id, p, o) == (p.source.node, p.target.node)
  {
  }

  /** The one session of a scope that its ends are the pair of. */
  ghost predicate Paired(
    scope: RelayScope, key: ScopeKey, id: Text, clients: map<Text, NodeId>, a: NodeId, b: NodeId)
  {
    && scope.sessions.Keys == {id} && scope.sessions[id].clients == clients
    && scope.sessions[id].source == a && scope.sessions[id].target == b
    && ScopeKey(scope.relay, scope.vni) == key && scope.pair == Some(EdgeOf(a, b))
  }

  /** The relay's observation joins those of the edge. */
  ghost predicate Observed(before: Edge, after: Edge, relay: NodeId, aToB: real, bToA: real, at: Time) {
    && after.source == before.source && after.target == before.target
    && after.lastActive == Later(at, before.lastActive)
    && after.observations.Keys == before.observations.Keys + {relay}
    && (forall n | n in before.observations && n != relay :: after.observations[n] == before.observations[n])
    && var o := after.observations[relay];
       && o.observer == relay && o.path.kind == PeerRelay && o.receivedAt == at && o.withdrawnAt == NEVER
       && (relay !in before.observations ==> o.aToB == aToB && o.bToA == bToA)
  }

  ghost predicate TrafficPut(
    w: Work, h: Work, k: EdgeKey, relay: NodeId, aToB: real, bToA: real, at: Time)
  {
    && h.graph.aliases == w.graph.aliases && h.graph.nodes.Keys == w.graph.nodes.Keys
    && h.graph.redirects == w.graph.redirects && h.graph.scopes == w.graph.scopes
    && h.touched.Keys == w.touched.Keys + {k} && h.graph.edges.Keys == w.graph.edges.Keys + {k}
    && Observed(EdgeIn(w.graph.edges, k), h.graph.edges[k], relay, aToB, bToA, at)
  }

  lemma PutObserved(
    w: Work, cfg: Config, key: EdgeKey, observation: Observation, a: NodeId, b: NodeId, at: Time, aToB: real,
    bToA: real)
    requires key in w.touched && observation.receivedAt == at && observation.withdrawnAt == NEVER
    requires observation.path.kind == PeerRelay
    requires observation.observer !in EdgeIn(w.graph.edges, key).observations ==>
      observation.aToB == aToB && observation.bToA == bToA
    ensures var h := MarkSystem(PutObservation(w.graph, key, observation, at), cfg, key, a, b);
      && h == w.graph.(edges := h.edges) && h.edges.Keys == w.graph.edges.Keys + {key}
      && Observed(EdgeIn(w.graph.edges, key), h.edges[key], observation.observer, aToB, bToA, at)
  {
    var put := PutObservation(w.graph, key, observation, at);
    assert put.edges.Keys == w.graph.edges.Keys + {key};
  }

  /** What a session with two ends adds: one observation by the relay, on the edge between them. */
  lemma Counted(r: SessionResult, cfg: Config, report: Report, relay: NodeId, s: SessionReport, at: Time)
    requires r.source != r.target
    ensures var k := EdgeOf(r.source, r.target);
      var rates := (PerSecond(s.forward, s.milliseconds), PerSecond(s.backward, s.milliseconds));
      var (aToB, bToA) := if r.source == k.source then rates else (rates.1, rates.0);
      TrafficPut(r.work, RelaySettle(r, cfg, report, relay, s, at), k, relay, aToB, bToA, at)
  {
    var a, b := r.source, r.target;
    CollectedNames(r.work.graph, a, report.collectedAt);
    CollectedNames(TouchCollected(r.work.graph, a, report.collectedAt), b, report.collectedAt);
    var known := r.work.(graph :=
      TouchCollected(TouchCollected(r.work.graph, a, report.collectedAt), b, report.collectedAt));
    TrafficCounted(known, cfg, report, relay, a, b, s, at);
  }

  lemma SampledRates(
    g: Graph, key: EdgeKey, relay: NodeId, s: SessionReport, aToB: int, bToA: int, collectedAt: Time, at: Time)
    ensures var o := RelaySample(g, key, relay, s, aToB, bToA, collectedAt, at);
      && o.observer == relay && o.receivedAt == at && o.withdrawnAt == NEVER && o.path.kind == PeerRelay
      && (relay !in EdgeIn(g.edges, key).observations ==>
            o.aToB == PerSecond(aToB, s.milliseconds) && o.bToA == PerSecond(bToA, s.milliseconds))
  {
  }

  lemma TouchedNames(w: Work, a: NodeId, b: NodeId, at: Time, key: EdgeKey)
    ensures var met := w.(graph := TouchPeer(TouchPeer(w.graph, a, at), b, at));
      var seen := TouchEdge(met, key);
      && SameNames(w.graph, seen.graph) && seen.touched.Keys == w.touched.Keys + {key}
  {
    PeerNames(w.graph, a, at);
    PeerNames(TouchPeer(w.graph, a, at), b, at);
  }

  lemma TrafficCounted(
    w: Work, cfg: Config, report: Report, relay: NodeId, a: NodeId, b: NodeId, s: SessionReport, at: Time)
    ensures var k := EdgeOf(a, b);
      var rates := (PerSecond(s.forward, s.milliseconds), PerSecond(s.backward, s.milliseconds));
      var (aToB, bToA) := if a == k.source then rates else (rates.1, rates.0);
      TrafficPut(w, RelayTraffic(w, cfg, report, relay, a, b, s, at), k, relay, aToB, bToA, at)
  {
    var key := EdgeOf(a, b);
    TouchedNames(w, a, b, at, key);
    var seen := TouchEdge(w.(graph := TouchPeer(TouchPeer(w.graph, a, at), b, at)), key);
    var (aToB, bToA) := if a == key.source then (s.forward, s.backward) else (s.backward, s.forward);
    SampledRates(seen.graph, key, relay, s, aToB, bToA, report.collectedAt, at);
    var sample := RelaySample(seen.graph, key, relay, s, aToB, bToA, report.collectedAt, at);
    SamplePut(w, seen, RelayTraffic(w, cfg, report, relay, a, b, s, at), cfg, key, sample, a, b, at,
              PerSecond(aToB, s.milliseconds), PerSecond(bToA, s.milliseconds));
  }

  lemma SamplePut(
    w: Work, seen: Work, h: Work, cfg: Config, key: EdgeKey, sample: Observation, a: NodeId, b: NodeId, at: Time,
    aToB: real, bToA: real)
    requires SameNames(w.graph, seen.graph) && seen.touched.Keys == w.touched.Keys + {key}
    requires sample.receivedAt == at && sample.withdrawnAt == NEVER && sample.path.kind == PeerRelay
    requires sample.observer !in EdgeIn(w.graph.edges, key).observations ==> sample.aToB == aToB && sample.bToA == bToA
    requires h.graph == MarkSystem(PutObservation(seen.graph, key, sample, at), cfg, key, a, b)
    requires h.touched == seen.touched
    ensures TrafficPut(w, h, key, sample.observer, aToB, bToA, at)
  {
    PutObserved(seen, cfg, key, sample, a, b, at, aToB, bToA);
  }

  // ---------------------------------------------------------------------------------------------
  // One session of a report
  // ---------------------------------------------------------------------------------------------

  function NodeOf(g: Graph, stable: Text): Option<NodeId> {
    if StableAlias(stable) in g.aliases then Some(g.aliases[StableAlias(stable)]) else None
  }

  /** The stable IDs name different nodes, those that name any. */
  ghost predicate Apart(g: Graph, s: Text, t: Text) {
    NodeOf(g, s).Some? && NodeOf(g, t).Some? ==> NodeOf(g, s) != NodeOf(g, t)
  }

  /** Relays are live nodes, and this one has no scope under the session number. */
  ghost predicate NoScope(g: Graph, name: Text, vni: int) {
    && (forall k | k in g.scopes :: k.relay in g.nodes)
    && (NodeOf(g, name).Some? ==> ScopeKey(NodeOf(g, name).value, vni) !in g.scopes)
  }

  /** From `g` to `h` a relay and its two clients were met, which are three different nodes. */
  ghost predicate ThreeMet(g: Graph, h: Graph, name: Text, relay: NodeId, s: Text, a: NodeId, t: Text, b: NodeId) {
    && Tame(h)
    && h.aliases == g.aliases[StableAlias(name) := relay][StableAlias(s) := a][StableAlias(t) := b]
    && h.nodes.Keys == g.nodes.Keys + {relay, a, b} && relay != a && relay != b && a != b
    && (NodeOf(g, name).Some? ==> NodeOf(g, name) == Some(relay)) && (NodeOf(g, name).None? ==> relay !in g.nodes)
    && (NodeOf(g, s).Some? ==> NodeOf(g, s) == Some(a)) && (NodeOf(g, t).Some? ==> NodeOf(g, t) == Some(b))
  }

  lemma MetThrice(g: Graph, m: Graph, h: Graph, name: Text, relay: NodeId, s: Text, a: NodeId, t: Text, b: NodeId)
    requires Tame(g) && Met(g, m, name, relay) && BothMet(m, h, s, a, t, b)
    requires name != s && name != t && s != t && Apart(g, name, s) && Apart(g, name, t) && Apart(g, s, t)
    ensures ThreeMet(g, h, name, relay, s, a, t, b)
  {
  }

  /** From `w` to `h` a session between clients `a` and `b` of a relay was reported. */
  ghost predicate SessionAdded(
    w: Work, h: Work, key: ScopeKey, id: Text, c: Text, a: NodeId, d: Text, b: NodeId, rate: real, at: Time)
  {
    var g, k, relay := w.graph, EdgeOf(a, b), key.relay;
    var (aToB, bToA) := if a == k.source then (rate, 0.0) else (0.0, rate);
    && h.graph.scopes.Keys == g.scopes.Keys + {key}
    && key in h.graph.scopes && Paired(h.graph.scopes[key], key, id, map[c := a, d := b], a, b)
    && h.touched.Keys == w.touched.Keys + {k} && h.graph.edges.Keys == g.edges.Keys + {k}
    && Observed(EdgeIn(g.edges, k), h.graph.edges[k], relay, aToB, bToA, at)
  }

  ghost predicate FreshResolved(
    w: Work, r: SessionResult, key: ScopeKey, id: Text, c: Text, s: Text, d: Text, t: Text)
  {
    && r.source != r.target && r.work.touched == w.touched
    && BothMet(w.graph, r.work.graph, s, r.source, t, r.target)
    && r.work.graph.scopes.Keys == w.graph.scopes.Keys + {key}
    && key in r.work.graph.scopes
    && Paired(r.work.graph.scopes[key], key, id, map[c := r.source, d := r.target], r.source, r.target)
  }

  lemma SessionResolved(
    w: Work, cfg: Config, relay: NodeId, name: Text, c: Text, s: Text, d: Text, t: Text, id: Text, vni: int, bytes: nat,
    at: Time, o: Oracle)
    requires Fair(o) && Tame(w.graph) && Named(s) && Named(t) && c != d && s != t
    requires ScopeKey(relay, vni) !in w.graph.scopes && Apart(w.graph, s, t)
    ensures FreshResolved(
      w, ResolveSession(w, cfg, relay, Carries(name, Shown(c, s), Shown(d, t), id, vni, bytes), at, o),
      ScopeKey(relay, vni), id, c, s, d, t)
  {
    var key := ScopeKey(relay, vni);
    var session := Carries(name, Shown(c, s), Shown(d, t), id, vni, bytes);
    SessionPlaced(w, cfg, relay, name, c, s, d, t, id, vni, bytes, at, o);
    var p := PlaceSession(w, cfg, relay, session, at, o);
    var a, b := p.source.node, p.target.node;
    DifferentEnds(w.graph, p.work.graph, s, a, t, b);
    PairSettled(p.work.graph, cfg, key, id, map[c := a, d := b], p, at, o);
    var r := SettlePair(p.work.graph, cfg, key, p, at, o);
    assert ResolveSession(w, cfg, relay, session, at, o)
        == SessionResult(p.work.(graph := r.graph, canonical := p.work.canonical || r.changed), a, b);
  }

  lemma DifferentEnds(g: Graph, h: Graph, s: Text, a: NodeId, t: Text, b: NodeId)
    requires Tame(g) && BothMet(g, h, s, a, t, b) && s != t && Apart(g, s, t)
    ensures a != b
  {
  }

  lemma SessionReported(
    w: Work, cfg: Config, report: Report, name: Text, c: Text, s: Text, d: Text, t: Text, id: Text, vni: int,
    bytes: nat, at: Time, o: Oracle)
    returns (relay: NodeId, a: NodeId, b: NodeId)
    requires Fair(o) && Tame(w.graph) && Named(name) && Named(s) && Named(t)
    requires name != s && name != t && s != t && c != d
    requires Apart(w.graph, name, s) && Apart(w.graph, name, t) && Apart(w.graph, s, t) && NoScope(w.graph, name, vni)
    ensures var h := RelayOne(w, cfg, report, Carries(name, Shown(c, s), Shown(d, t), id, vni, bytes), at, o);
      && ThreeMet(w.graph, h.graph, name, relay, s, a, t, b)
      && SessionAdded(w, h, ScopeKey(relay, vni), id, c, a, d, b, PerSecond(bytes, 1000), at)
  {
    var session := Carries(name, Shown(c, s), Shown(d, t), id, vni, bytes);
    RelayMet(w, cfg, report, session, name, at, o);
    var (met, r) := RelayArrive(w, cfg, report, session, at, o);
    StillApart(w.graph, met.graph, name, r, s, t);
    SessionResolved(met, cfg, r, name, c, s, d, t, id, vni, bytes, at, o);
    var resolved := ResolveSession(met, cfg, r, session, at, o);
    relay, a, b := r, resolved.source, resolved.target;
    SessionCounted(w, met, resolved, cfg, report, relay, name, c, s, d, t, id, vni, bytes, at);
  }

  /** From the resolved session to the end of the step. */
  lemma SessionCounted(
    w: Work, met: Work, r: SessionResult, cfg: Config, report: Report, relay: NodeId, name: Text, c: Text, s: Text,
    d: Text, t: Text, id: Text, vni: int, bytes: nat, at: Time)
    requires Tame(w.graph) && name != s && name != t && s != t
    requires Apart(w.graph, name, s) && Apart(w.graph, name, t) && Apart(w.graph, s, t)
    requires SameRest(w.graph, met.graph) && Met(w.graph, met.graph, name, relay) && met.touched == w.touched
    requires FreshResolved(met, r, ScopeKey(relay, vni), id, c, s, d, t)
    ensures var h := RelaySettle(r, cfg, report, relay, Carries(name, Shown(c, s), Shown(d, t), id, vni, bytes), at);
      && ThreeMet(w.graph, h.graph, name, relay, s, r.source, t, r.target)
      && SessionAdded(w, h, ScopeKey(relay, vni), id, c, r.source, d, r.target, PerSecond(bytes, 1000), at)
  {
    var session := Carries(name, Shown(c, s), Shown(d, t), id, vni, bytes);
    MetThrice(w.graph, met.graph, r.work.graph, name, relay, s, r.source, t, r.target);
    Counted(r, cfg, report, relay, session, at);
    var h := RelaySettle(r, cfg, report, relay, session, at);
    var k := EdgeOf(r.source, r.target);
    var (aToB, bToA) := if r.source == k.source then (PerSecond(bytes, 1000), 0.0) else (0.0, PerSecond(bytes, 1000));
    AddedAs(w, met, r, h, ScopeKey(relay, vni), id, c, d, k, aToB, bToA, at);
    SameNamesMet(w.graph, r.work.graph, h.graph, name, relay, s, r.source, t, r.target);
  }

  lemma AddedAs(
    w: Work, met: Work, r: SessionResult, h: Work, key: ScopeKey, id: Text, c: Text, d: Text, k: EdgeKey, aToB: real,
    bToA: real, at: Time)
    requires SameRest(w.graph, met.graph) && met.touched == w.touched
    requires r.work.touched == met.touched && r.work.graph.edges == met.graph.edges
    requires r.work.graph.scopes.Keys == met.graph.scopes.Keys + {key} && key in r.work.graph.scopes
    requires Paired(r.work.graph.scopes[key], key, id, map[c := r.source, d := r.target], r.source, r.target)
    requires TrafficPut(r.work, h, k, key.relay, aToB, bToA, at)
    ensures h.graph.scopes.Keys == w.graph.scopes.Keys + {key} && key in h.graph.scopes
    ensures Paired(h.graph.scopes[key], key, id, map[c := r.source, d := r.target], r.source, r.target)
    ensures h.touched.Keys == w.touched.Keys + {k} && h.graph.edges.Keys == w.graph.edges.Keys + {k}
    ensures Observed(EdgeIn(w.graph.edges, k), h.graph.edges[k], key.relay, aToB, bToA, at)
  {
  }

  lemma StillApart(g: Graph, h: Graph, name: Text, relay: NodeId, s: Text, t: Text)
    requires Tame(g) && Met(g, h, name, relay) && name != s && name != t && Apart(g, s, t)
    ensures Apart(h, s, t)
  {
  }

  lemma SameNamesMet(
    g: Graph, m: Graph, h: Graph, name: Text, relay: NodeId, s: Text, a: NodeId, t: Text, b: NodeId)
    requires ThreeMet(g, m, name, relay, s, a, t, b)
    requires h.aliases == m.aliases && h.nodes.Keys == m.nodes.Keys && h.redirects == m.redirects
    ensures ThreeMet(g, h, name, relay, s, a, t, b)
  {
  }

  // ---------------------------------------------------------------------------------------------
  // A report of two sessions
  // ---------------------------------------------------------------------------------------------

  function Start(reporter: ReporterId): Work {
    Work0(EMPTY_GRAPH.(reporters := map[reporter := Reporter(NO_MEMORY, {})]), false)
  }

  /** What the two sessions of a reporter's first report come to. */
  function Both(cfg: Config, reporter: ReporterId, one: SessionReport, two: SessionReport, at: Time, o: Oracle): Work {
    var report := RelayReport(reporter, at, [one, two]);
    RelayOne(RelayOne(Start(reporter), cfg, report, one, at, o), cfg, report, two, at, o)
  }

  lemma NothingToPrune(cfg: Config, now: Time)
    ensures Prune(EMPTY_GRAPH, cfg, now) == EMPTY_GRAPH
  {
  }

  lemma TwoInTurn(
    w: Work, cfg: Config, report: Report, one: SessionReport, two: SessionReport, at: Time, o: Oracle)
    ensures RelayAll(w, cfg, report, [one, two], at, o)
         == RelayOne(RelayOne(w, cfg, report, one, at, o), cfg, report, two, at, o)
  {
    assert [one, two][..1] == [one] && [one][..0] == [];
    assert RelayAll(w, cfg, report, [one], at, o)
      == RelayOne(RelayAll(w, cfg, report, [], at, o), cfg, report, one, at, o);
  }

  lemma FirstAdmitted(cfg: Config, reporter: ReporterId, at: Time, sessions: seq<SessionReport>)
    ensures VerdictOn(Start(reporter).graph, cfg, RelayReport(reporter, at, sessions), at) == Admit(false)
  {
  }

  lemma AdmittedRelays(g: Graph, cfg: Config, report: Report, at: Time, o: Oracle)
    requires report.kind == RelayUpdate
    requires VerdictOn(Enrol(Prune(g, cfg, at), report.reporter), cfg, report, at) == Admit(false)
    ensures Apply(g, cfg, report, at, o) ==
      Finish(RelayAll(Work0(Enrol(Prune(g, cfg, at), report.reporter), false), cfg, report, report.sessions, at, o),
             cfg, report, at)
  {
    var w := Work0(Enrol(Prune(g, cfg, at), report.reporter), false);
    var done := RelayAll(w, cfg, report, report.sessions, at, o);
    assert Process(w, cfg, report, at, o) == Some(done);
  }

  lemma FirstReport(cfg: Config, reporter: ReporterId, one: SessionReport, two: SessionReport, at: Time, o: Oracle)
    ensures var report := RelayReport(reporter, at, [one, two]);
      Apply(EMPTY_GRAPH, cfg, report, at, o) == Finish(Both(cfg, reporter, one, two, at, o), cfg, report, at)
  {
    NothingToPrune(cfg, at);
    var report := RelayReport(reporter, at, [one, two]);
    assert Work0(Enrol(EMPTY_GRAPH, reporter), false) == Start(reporter);
    FirstAdmitted(cfg, reporter, at, [one, two]);
    AdmittedRelays(EMPTY_GRAPH, cfg, report, at, o);
    TwoInTurn(Start(reporter), cfg, report, one, two, at, o);
  }

  /** What the closing loop leaves as it is. */
  lemma FinishKeeps(w: Work, cfg: Config, report: Report, at: Time)
    requires w.touched.Keys <= w.graph.edges.Keys
    ensures var a := Finish(w, cfg, report, at);
      && a.Some? && a.value.graph.nodes == w.graph.nodes && a.value.graph.edges.Keys == w.graph.edges.Keys
      && forall k | k in w.graph.edges ::
           && a.value.graph.edges[k].observations == w.graph.edges[k].observations
           && a.value.graph.edges[k].source == w.graph.edges[k].source
           && a.value.graph.edges[k].target == w.graph.edges[k].target
  {
  }

  /** Two relays observed the edge at the same instant, and report different rates. */
  ghost predicate HeardTwice(edge: Edge, n: NodeId, m: NodeId, at: Time) {
    && edge.observations.Keys == {n, m} && edge.source !in {n, m} && edge.target !in {n, m}
    && (forall r | r in edge.observations ::
          var o := edge.observations[r]; o.path.kind == PeerRelay && o.receivedAt == at && o.withdrawnAt == NEVER)
    && var p, q := edge.observations[n], edge.observations[m];
       (p.aToB, p.bToA) != (q.aToB, q.bToA)
  }

  lemma RelaysTie(edge: Edge, cfg: Config, now: Time, n: NodeId, m: NodeId)
    requires cfg.heartbeat >= 0 && HeardTwice(edge, n, m, now)
    ensures exists r, q :: r in RatesAt(edge, cfg, now) && q in RatesAt(edge, cfg, now) && r != q
  {
    assert Tie(edge, cfg, now, n, m);
    RatesSplitIff(edge, cfg, now);
  }

  /** The pair of a relay's one session, with the edge between the two. */
  ghost predicate PairKnown(
    g: Graph, name: Text, key: ScopeKey, id: Text, c: Text, a: NodeId, d: Text, t: Text, b: NodeId)
  {
    && EdgesLive(g) && NamesOnly(g.aliases, g.nodes.Keys)
    && NodeOf(g, name) == Some(key.relay) && NodeOf(g, t) == Some(b) && a in g.nodes
    && a != key.relay && b != key.relay && a != b
    && g.scopes.Keys == {key} && Paired(g.scopes[key], key, id, map[c := a, d := b], a, b)
  }

  /** What a reporter's first session leaves. */
  ghost predicate OneReported(
    v: Work, name: Text, key: ScopeKey, id: Text, c: Text, s: Text, a: NodeId, d: Text, t: Text, b: NodeId, rate: real,
    at: Time)
  {
    var k := EdgeOf(a, b);
    && Tame(v.graph) && PairKnown(v.graph, name, key, id, c, a, d, t, b) && NodeOf(v.graph, s) == Some(a)
    && v.graph.aliases.Keys == {StableAlias(name), StableAlias(s), StableAlias(t)}
    && v.touched.Keys == v.graph.edges.Keys == {k}
    && Observed(Edge(k.source, k.target, false, NEVER, None, map[]), v.graph.edges[k], key.relay,
                if a == k.source then rate else 0.0, if a == k.source then 0.0 else rate, at)
  }

  lemma OneReportedFrom(
    u: Work, v: Work, name: Text, key: ScopeKey, id: Text, c: Text, s: Text, a: NodeId, d: Text, t: Text, b: NodeId,
    rate: real, at: Time)
    requires u.graph.aliases == map[] && u.graph.nodes == map[] && u.graph.scopes == map[] && u.graph.edges == map[]
    requires u.touched == map[] && name != s && name != t && s != t
    requires ThreeMet(u.graph, v.graph, name, key.relay, s, a, t, b)
      && SessionAdded(u, v, key, id, c, a, d, b, rate, at)
    ensures OneReported(v, name, key, id, c, s, a, d, t, b, rate, at)
  {
    var k := EdgeOf(a, b);
    assert KeyedAs(k, v.graph.edges[k]);
    FirstPairKnown(u.graph, v.graph, name, key, id, c, s, a, d, t, b);
  }

  lemma FirstPairKnown(
    g: Graph, h: Graph, name: Text, key: ScopeKey, id: Text, c: Text, s: Text, a: NodeId, d: Text, t: Text, b: NodeId)
    requires g.aliases == map[] && g.nodes == map[] && name != s && name != t && s != t
    requires ThreeMet(g, h, name, key.relay, s, a, t, b) && h.edges.Keys == {EdgeOf(a, b)}
    requires KeyedAs(EdgeOf(a, b), h.edges[EdgeOf(a, b)])
    requires h.scopes.Keys == {key} && Paired(h.scopes[key], key, id, map[c := a, d := b], a, b)
    ensures PairKnown(h, name, key, id, c, a, d, t, b)
  {
  }

  lemma FirstReported(
    cfg: Config, reporter: ReporterId, report: Report, name: Text, c: Text, s: Text, d: Text, t: Text, id: Text,
    vni: int, bytes: nat, at: Time, o: Oracle)
    returns (key: ScopeKey, a: NodeId, b: NodeId)
    requires Fair(o) && Named(name) && Named(s) && Named(t) && name != s && name != t && s != t && c != d
    ensures key.vni == vni
    ensures OneReported(
      RelayOne(Start(reporter), cfg, report, Carries(name, Shown(c, s), Shown(d, t), id, vni, bytes), at, o),
      name, key, id, c, s, a, d, t, b, PerSecond(bytes, 1000), at)
  {
    var u := Start(reporter);
    var relay;
    relay, a, b := SessionReported(u, cfg, report, name, c, s, d, t, id, vni, bytes, at, o);
    key := ScopeKey(relay, vni);
    var v := RelayOne(u, cfg, report, Carries(name, Shown(c, s), Shown(d, t), id, vni, bytes), at, o);
    OneReportedFrom(u, v, name, key, id, c, s, a, d, t, b, PerSecond(bytes, 1000), at);
  }

  lemma TwiceHeard(
    v: Work, w: Work, one: Text, key: ScopeKey, two: Text, other: ScopeKey, id: Text, c: Text, s: Text, a: NodeId,
    d: Text, t: Text, b: NodeId, at: Time)
    requires OneReported(v, one, key, id, c, s, a, d, t, b, PerSecond(1, 1000), at)
    requires other.relay != key.relay && other.relay != a && other.relay != b
    requires SessionAdded(v, w, other, id, c, a, d, b, PerSecond(2, 1000), at)
    ensures var k := EdgeOf(a, b);
      && w.touched.Keys <= w.graph.edges.Keys && k in w.graph.edges
      && HeardTwice(w.graph.edges[k], key.relay, other.relay, at)
  {
  }

  /** After the first session another relay is still unknown. */
  lemma OtherRelay(
    v: Work, one: Text, key: ScopeKey, two: Text, id: Text, c: Text, s: Text, a: NodeId, d: Text, t: Text, b: NodeId,
    rate: real, at: Time)
    requires OneReported(v, one, key, id, c, s, a, d, t, b, rate, at) && two != one && two != s && two != t
    ensures NodeOf(v.graph, two).None? && NoScope(v.graph, two, key.vni) && {key.relay, a, b} <= v.graph.nodes.Keys
    ensures Apart(v.graph, two, s) && Apart(v.graph, two, t) && Apart(v.graph, s, t)
  {
  }

  lemma MetAgain(
    g: Graph, h: Graph, two: Text, m: NodeId, s: Text, a': NodeId, t: Text, b': NodeId, n: NodeId, a: NodeId, b: NodeId)
    requires ThreeMet(g, h, two, m, s, a', t, b')
    requires NodeOf(g, two).None? && NodeOf(g, s) == Some(a) && NodeOf(g, t) == Some(b) && {n, a, b} <= g.nodes.Keys
    ensures a' == a && b' == b && m != n && m != a && m != b
  {
  }

  lemma SecondRelay(
    v: Work, cfg: Config, report: Report, one: Text, key: ScopeKey, two: Text, id: Text, c: Text, s: Text, a: NodeId,
    d: Text, t: Text, b: NodeId, at: Time, o: Oracle)
    returns (m: NodeId)
    requires OneReported(v, one, key, id, c, s, a, d, t, b, PerSecond(1, 1000), at)
    requires Fair(o) && Named(two) && Named(s) && Named(t) && c != d && s != t && two != one && two != s && two != t
    ensures var w := RelayOne(v, cfg, report, Carries(two, Shown(c, s), Shown(d, t), id, key.vni, 2), at, o);
      var k := EdgeOf(a, b);
      w.touched.Keys <= w.graph.edges.Keys && k in w.graph.edges && HeardTwice(w.graph.edges[k], key.relay, m, at)
  {
    OtherRelay(v, one, key, two, id, c, s, a, d, t, b, PerSecond(1, 1000), at);
    var a', b';
    m, a', b' := SessionReported(v, cfg, report, two, c, s, d, t, id, key.vni, 2, at, o);
    var w := RelayOne(v, cfg, report, Carries(two, Shown(c, s), Shown(d, t), id, key.vni, 2), at, o);
    MetAgain(v.graph, w.graph, two, m, s, a', t, b', key.relay, a, b);
    TwiceHeard(v, w, one, key, two, ScopeKey(m, key.vni), id, c, s, a, d, t, b, at);
  }

  /** One relay update with two sessions of the same clients through two relays: two snapshots at the instant at
      which it was received can show different rates. */
  lemma TieIsReached(
    cfg: Config, reporter: ReporterId, one: Text, two: Text, c: Text, s: Text, d: Text, t: Text, id: Text, vni: int,
    at: Time, o: Oracle)
    requires Fair(o) && cfg.heartbeat >= 0 && Named(one) && Named(two) && Named(s) && Named(t) && c != d
    requires one != two && one != s && one != t && two != s && two != t && s != t
    ensures var report := RelayReport(reporter, at, [
        Carries(one, Shown(c, s), Shown(d, t), id, vni, 1), Carries(two, Shown(c, s), Shown(d, t), id, vni, 2)]);
      var a := Apply(EMPTY_GRAPH, cfg, report, at, o);
      && a.Some?
      && exists k | k in a.value.graph.edges :: exists r, q ::
           r in RatesAt(a.value.graph.edges[k], cfg, at) && q in RatesAt(a.value.graph.edges[k], cfg, at) && r != q
  {
    var first, second :=
      Carries(one, Shown(c, s), Shown(d, t), id, vni, 1), Carries(two, Shown(c, s), Shown(d, t), id, vni, 2);
    var report := RelayReport(reporter, at, [first, second]);
    FirstReport(cfg, reporter, first, second, at, o);
    var key, a, b := FirstReported(cfg, reporter, report, one, c, s, d, t, id, vni, 1, at, o);
    var v := RelayOne(Start(reporter), cfg, report, first, at, o);
    var m := SecondRelay(v, cfg, report, one, key, two, id, c, s, a, d, t, b, at, o);
    TieShows(RelayOne(v, cfg, report, second, at, o), cfg, report, EdgeOf(a, b), key.relay, m, at);
  }

  lemma TieShows(w: Work, cfg: Config, report: Report, k: EdgeKey, n: NodeId, m: NodeId, at: Time)
    requires cfg.heartbeat >= 0 && w.touched.Keys <= w.graph.edges.Keys && k in w.graph.edges
    requires HeardTwice(w.graph.edges[k], n, m, at)
    ensures var a := Finish(w, cfg, report, at);
      && a.Some?
      && exists k | k in a.value.graph.edges :: exists r, q ::
           r in RatesAt(a.value.graph.edges[k], cfg, at) && q in RatesAt(a.value.graph.edges[k], cfg, at) && r != q
  {
    FinishKeeps(w, cfg, report, at);
    var edge := Finish(w, cfg, report, at).value.graph.edges[k];
    RelaysTie(edge, cfg, at, n, m);
  }

  // ---------------------------------------------------------------------------------------------
  // A dead end
  // ---------------------------------------------------------------------------------------------

  /** A relay with one session, both clients of which are taken for the node `x`, and no edge yet. */
  ghost predicate Shared(g: Graph, name: Text, key: ScopeKey, id: Text, c: Text, d: Text, x: NodeId) {
    && Tame(g) && NodeOf(g, name) == Some(key.relay) && x != key.relay && {x, key.relay} <= g.nodes.Keys
    && g.edges == map[] && g.scopes.Keys == {key}
    && Opened(g.scopes[key], key, id, map[c := x, d := x])
  }

  /** What meets a relay again keeps that. */
  lemma SharedOn(g: Graph, h: Graph, name: Text, key: ScopeKey, id: Text, c: Text, d: Text, x: NodeId)
    requires Shared(g, name, key, id, c, d, x) && SameRest(g, h) && Met(g, h, name, key.relay)
    ensures Shared(h, name, key, id, c, d, x)
  {
  }

  lemma SameClientTwice(
    w: Work, cfg: Config, report: Report, name: Text, c: Text, d: Text, s: Text, id: Text, vni: int, bytes: nat,
    at: Time,
    o: Oracle)
    returns (relay: NodeId, x: NodeId)
    requires Fair(o) && w.graph.aliases == map[] && w.graph.nodes == map[] && w.graph.redirects == map[]
    requires w.graph.scopes == map[] && w.graph.edges == map[] && w.touched == map[]
    requires Named(name) && Named(s) && name != s && c != d
    ensures var h := RelayOne(w, cfg, report, Carries(name, Shown(c, s), Shown(d, s), id, vni, bytes), at, o);
      && Shared(h.graph, name, ScopeKey(relay, vni), id, c, d, x) && h.touched == map[]
      && h.graph.aliases.Keys == {StableAlias(name), StableAlias(s)}
  {
    var session := Carries(name, Shown(c, s), Shown(d, s), id, vni, bytes);
    RelayMet(w, cfg, report, session, name, at, o);
    var (met, r) := RelayArrive(w, cfg, report, session, at, o);
    SessionPlaced(met, cfg, r, name, c, s, d, s, id, vni, bytes, at, o);
    var p := PlaceSession(met, cfg, r, session, at, o);
    relay, x := r, p.source.node;
    SameEndsSettled(p, cfg, ScopeKey(r, vni), id, at, o);
    var resolved := ResolveSession(met, cfg, r, session, at, o);
    assert resolved == SessionResult(p.work, x, x);
    SharedSettled(w, met, p, resolved, cfg, report, session, name, relay, s, id, c, d, vni, at);
  }

  lemma SharedSettled(
    w: Work, met: Work, p: Placed, r: SessionResult, cfg: Config, report: Report, session: SessionReport, name: Text,
    relay: NodeId, s: Text, id: Text, c: Text, d: Text, vni: int, at: Time)
    requires w.graph.aliases == map[] && w.graph.nodes == map[] && w.graph.scopes == map[] && w.graph.edges == map[]
    requires w.touched == map[] && met.touched == map[] && name != s
    requires SameRest(w.graph, met.graph) && Met(w.graph, met.graph, name, relay)
    requires FreshPlaced(met, p, ScopeKey(relay, vni), id, c, s, d, s)
    requires r == SessionResult(p.work, p.source.node, p.source.node)
    ensures var h := RelaySettle(r, cfg, report, relay, session, at);
      && Shared(h.graph, name, ScopeKey(relay, vni), id, c, d, p.source.node) && h.touched == map[]
      && h.graph.aliases.Keys == {StableAlias(name), StableAlias(s)}
  {
    SettledAtOnce(r, cfg, report, relay, session, at);
    var h := RelaySettle(r, cfg, report, relay, session, at);
    SharedFrom(w.graph, met.graph, p.work.graph, h.graph, name, relay, s, id, c, d, p.source.node, vni);
  }

  /** Two clients taken for one node settle nothing, */
  lemma SameEndsSettled(p: Placed, cfg: Config, key: ScopeKey, id: Text, at: Time, o: Oracle)
    requires !p.tangled && p.source.node == p.target.node && HasSession(p.work.graph, key, id)
    requires SessionOf(p.work.graph, key, id).source == p.source.node
    requires SessionOf(p.work.graph, key, id).target == p.source.node
    ensures var r := SettlePair(p.work.graph, cfg, key, p, at, o);
      r == Reconciled(p.work.graph, false, false) && EndsOf(r, key, id, p, o) == (p.source.node, p.source.node)
    ensures p.work.(graph := p.work.graph, canonical := p.work.canonical || false) == p.work
  {
  }

  /** and count no traffic. */
  lemma SettledAtOnce(r: SessionResult, cfg: Config, report: Report, relay: NodeId, s: SessionReport, at: Time)
    requires r.source == r.target
    ensures var h := RelaySettle(r, cfg, report, relay, s, at);
      h.touched == r.work.touched && SameNames(r.work.graph, h.graph)
  {
    CollectedNames(r.work.graph, r.source, report.collectedAt);
    CollectedNames(TouchCollected(r.work.graph, r.source, report.collectedAt), r.source, report.collectedAt);
  }

  lemma SharedFrom(
    g: Graph, met: Graph, placed: Graph, h: Graph, name: Text, relay: NodeId, s: Text, id: Text, c: Text, d: Text,
    x: NodeId, vni: int)
    requires g.aliases == map[] && g.nodes == map[] && g.scopes == map[] && g.edges == map[] && name != s
    requires SameRest(g, met) && Met(g, met, name, relay) && BothMet(met, placed, s, x, s, x) && SameNames(placed, h)
    requires placed.scopes.Keys == {ScopeKey(relay, vni)}
    requires Opened(placed.scopes[ScopeKey(relay, vni)], ScopeKey(relay, vni), id, map[c := x, d := x])
    ensures Shared(h, name, ScopeKey(relay, vni), id, c, d, x)
    ensures h.aliases.Keys == {StableAlias(name), StableAlias(s)}
  {
  }

  lemma UnshownResolved(w: Work, cfg: Config, client: Text, x: NodeId, at: Time, o: Oracle)
    ensures var r := ResolveClient(w, cfg, Some(x), Unshown(client), at, o);
      r.node == x && r.status == Anonymous && r.work.touched == w.touched && SameNames(w.graph, r.work.graph)
  {
  }

  lemma UnshownPlaced(w: Work, cfg: Config, key: ScopeKey, id: Text, client: Text, x: NodeId, at: Time, o: Oracle)
    requires ClientNode(w.graph, key, id, client) == Some(x)
    ensures var (r, tangled) := PlaceClient(w, cfg, key, id, Unshown(client), at, o);
      && !tangled && r.node == x && r.status == Anonymous && r.work.touched == w.touched
      && r.work.graph.aliases == w.graph.aliases && r.work.graph.nodes.Keys == w.graph.nodes.Keys
      && ClientPut(w.graph, r.work.graph, key, id, client, x)
  {
    UnshownResolved(w, cfg, client, x, at, o);
    QuietlyPlaced(w, cfg, key, id, Unshown(client), at, o);
  }

  /** The session is entered again, and its source shows nothing this time. */
  lemma SharedAgain(
    w: Work, cfg: Config, name: Text, key: ScopeKey, id: Text, c: Text, d: Text, x: NodeId, at: Time, o: Oracle)
    requires Shared(w.graph, name, key, id, c, d, x)
    ensures var (r, tangled) := PlaceClient(EnterSession(w, key, id, at), cfg, key, id, Unshown(c), at, o);
      && !tangled && r.node == x && r.status == Anonymous && r.work.touched == w.touched
      && Shared(r.work.graph, name, key, id, c, d, x) && r.work.graph.aliases == w.graph.aliases
  {
    var entered := EnterSession(w, key, id, at);
    assert Shared(entered.graph, name, key, id, c, d, x) && entered.touched == w.touched;
    UnshownPlaced(entered, cfg, key, id, c, x, at, o);
    var (r, _) := PlaceClient(entered, cfg, key, id, Unshown(c), at, o);
    OpenedOn(entered.graph, r.work.graph, key, id, map[c := x, d := x], c, x);
    assert map[c := x, d := x][c := x] == map[c := x, d := x];
  }

  /** The shared node is gone, and both clients are the node that absorbed it. */
  ghost predicate Absorbed(g: Graph, key: ScopeKey, id: Text, c: Text, d: Text, x: NodeId, y: NodeId) {
    && y != x && x !in g.nodes && g.edges == map[]
    && key in g.scopes && Opened(g.scopes[key], key, id, map[c := y, d := y])
  }

  lemma EmptyRebuilt(g: Graph, keep: NodeId, remove: NodeId, o: Oracle)
    requires Fair(o) && g.edges == map[]
    ensures RebuildEdges(g.edges, o.edgeOrder(g.edges), keep, remove, o) == map[]
  {
    var order := o.edgeOrder(g.edges);
    assert Enumerates(order, g.edges.Keys);
    SomeIsIn(order);
  }

  lemma SomeIsIn(order: seq<EdgeKey>)
    ensures |order| > 0 ==> exists k :: k in order
  {
    if |order| > 0 {
      assert order[0] in order;
    }
  }

  lemma MergedAway(
    g: Graph, name: Text, key: ScopeKey, id: Text, c: Text, d: Text, x: NodeId, y: NodeId, o: Oracle)
    requires Fair(o) && Shared(g, name, key, id, c, d, x) && y in g.nodes && y != x && y != key.relay
    ensures var h := Merge(g, y, x, o); Absorbed(h, key, id, c, d, x, y) && h.redirects == map[x := y]
  {
    var order := o.scopeOrder(g.scopes);
    assert Enumerates(order, g.scopes.Keys);
    ScopeMovesAlone(g.scopes, order, key, y, x);
    EmptyRebuilt(g, y, x, o);
    OpenedRepointed(g.scopes[key], key, id, c, d, x, y);
    MergedParts(g, y, x, o);
    FirstRedirect(g.redirects, y, x);
    AbsorbedFrom(g, Merge(g, y, x, o), key, id, c, d, x, y);
  }

  lemma FirstRedirect(redirects: map<NodeId, NodeId>, keep: NodeId, remove: NodeId)
    requires redirects == map[]
    ensures RepointRedirects(redirects, keep, remove) == map[remove := keep]
  {
  }

  lemma AbsorbedFrom(g: Graph, h: Graph, key: ScopeKey, id: Text, c: Text, d: Text, x: NodeId, y: NodeId)
    requires y != x && h.nodes.Keys == g.nodes.Keys - {x} && h.edges == map[] && key in h.scopes
    requires Opened(h.scopes[key], key, id, map[c := y, d := y])
    ensures Absorbed(h, key, id, c, d, x, y)
  {
  }

  lemma MergedParts(g: Graph, keep: NodeId, remove: NodeId, o: Oracle)
    requires keep in g.nodes && remove in g.nodes && keep != remove
    ensures var h := Merge(g, keep, remove, o);
      && h.nodes.Keys == g.nodes.Keys - {remove} && h.redirects == RepointRedirects(g.redirects, keep, remove)
      && h.edges == RebuildEdges(g.edges, o.edgeOrder(g.edges), keep, remove, o)
      && h.scopes == RebuildScopes(g.scopes, o.scopeOrder(g.scopes), keep, remove)
      && h.aliases == RepointAliases(g.aliases, keep, remove)
  {
  }

  lemma OpenedRepointed(scope: RelayScope, key: ScopeKey, id: Text, c: Text, d: Text, x: NodeId, y: NodeId)
    requires Opened(scope, key, id, map[c := x, d := x]) && x != key.relay
    ensures Opened(RepointScope(scope, y, x), key, id, map[c := y, d := y])
  {
    assert RepointScope(scope, y, x).sessions[id].clients == map[c := y, d := y];
  }

  lemma TargetMoves(
    w: Work, cfg: Config, name: Text, key: ScopeKey, id: Text, c: Text, d: Text, x: NodeId, t: Text, at: Time,
    o: Oracle)
    requires Fair(o) && Shared(w.graph, name, key, id, c, d, x) && Named(t) && NodeOf(w.graph, t).None?
    ensures var (r, tangled) := PlaceClient(w, cfg, key, id, Shown(d, t), at, o);
      && !tangled && r.status == Resolved && r.work.touched == w.touched
      && Absorbed(r.work.graph, key, id, c, d, x, r.node)
  {
    StableMet(w.graph, cfg, t, at, o);
    var m := Resolve(w.graph, cfg, OnlyStable(t), at, o);
    SharedMet(w.graph, m.graph, name, key, id, c, d, x, t, m.node);
    MergedAway(m.graph, name, key, id, c, d, x, m.node, o);
    var r := ResolveClient(w, cfg, Some(x), Shown(d, t), at, o);
    MovedTo(w, cfg, x, d, t, at, o);
    OneRedirect(w.graph, r.work.graph, key, x, m.node);
    PutAgain(r.work.graph, key, id, c, d, x, m.node);
    PlacedUntangled(w, cfg, key, id, Some(x), Shown(d, t), at, o);
  }

  lemma PlacedUntangled(
    w: Work, cfg: Config, key: ScopeKey, id: Text, existing: Option<NodeId>, c: RelayClient, at: Time, o: Oracle)
    requires ClientNode(w.graph, key, id, c.id) == existing
    requires !Tangled(w.graph, ResolveClient(w, cfg, existing, c, at, o).work.graph, key)
    ensures var r := ResolveClient(w, cfg, existing, c, at, o);
      PlaceClient(w, cfg, key, id, c, at, o)
      == (r.(work := r.work.(graph := PutClient(r.work.graph, key, id, c.id, r.node))), false)
  {
  }

  lemma OneRedirect(g: Graph, h: Graph, key: ScopeKey, x: NodeId, y: NodeId)
    requires g.redirects == map[] && h.redirects == map[x := y] && key.relay != x && key.relay != y
    ensures !Tangled(g, h, key)
  {
  }

  lemma SharedMet(
    g: Graph, h: Graph, name: Text, key: ScopeKey, id: Text, c: Text, d: Text, x: NodeId, t: Text, y: NodeId)
    requires Shared(g, name, key, id, c, d, x) && SameRest(g, h) && Met(g, h, t, y) && NodeOf(g, t).None?
    ensures Shared(h, name, key, id, c, d, x) && y in h.nodes && y != x && y != key.relay
  {
    assert StableAlias(name) != StableAlias(t);
  }

  lemma MovedTo(w: Work, cfg: Config, x: NodeId, d: Text, t: Text, at: Time, o: Oracle)
    requires Named(t) && Resolve(w.graph, cfg, OnlyStable(t), at, o).node != x
    ensures var r := ResolveClient(w, cfg, Some(x), Shown(d, t), at, o);
      var m := Resolve(w.graph, cfg, OnlyStable(t), at, o);
      && r.node == m.node && r.status == Resolved && r.work.touched == w.touched
      && r.work.graph == Merge(m.graph, m.node, x, o)
  {
    assert StrongAliases(OnlyStable(t)) == [StableAlias(t)];
  }

  lemma PutAgain(g: Graph, key: ScopeKey, id: Text, c: Text, d: Text, x: NodeId, y: NodeId)
    requires Absorbed(g, key, id, c, d, x, y)
    ensures var h := PutClient(g, key, id, d, y); h == g.(scopes := h.scopes) && Absorbed(h, key, id, c, d, x, y)
  {
    assert map[c := y, d := y][d := y] == map[c := y, d := y];
  }

  /** An end that is not resolved and no pair to infer one from. */
  lemma NothingToInfer(p: Placed, cfg: Config, key: ScopeKey, id: Text, clients: map<Text, NodeId>, at: Time, o: Oracle)
    requires !p.tangled && p.source.node != p.target.node && p.source.status != Resolved
    requires key in p.work.graph.scopes && Opened(p.work.graph.scopes[key], key, id, clients)
    requires SessionOf(p.work.graph, key, id).source == p.source.node
    requires SessionOf(p.work.graph, key, id).target == p.target.node
    ensures var r := SettlePair(p.work.graph, cfg, key, p, at, o);
      r == Reconciled(p.work.graph, false, false) && EndsOf(r, key, id, p, o) == (p.source.node, p.target.node)
  {
  }

  lemma DeadSourceResolved(
    w: Work, cfg: Config, name: Text, relay: NodeId, c: Text, d: Text, t: Text, x: NodeId, id: Text, vni: int,
    bytes: nat,
    at: Time, o: Oracle)
    requires Fair(o) && Shared(w.graph, name, ScopeKey(relay, vni), id, c, d, x) && c != d
    requires Named(t) && NodeOf(w.graph, t).None?
    ensures var r := ResolveSession(w, cfg, relay, Carries(name, Unshown(c), Shown(d, t), id, vni, bytes), at, o);
      && r.source == x && r.target != x && x !in r.work.graph.nodes
      && r.work.graph.edges == map[] && r.work.touched == w.touched
  {
    var key := ScopeKey(relay, vni);
    var session := Carries(name, Unshown(c), Shown(d, t), id, vni, bytes);
    SharedAgain(w, cfg, name, key, id, c, d, x, at, o);
    var (a, _) := PlaceClient(EnterSession(w, key, id, at), cfg, key, id, Unshown(c), at, o);
    TargetMoves(a.work, cfg, name, key, id, c, d, x, t, at, o);
    var (b, _) := PlaceClient(a.work, cfg, key, id, Shown(d, t), at, o);
    EndsPut(b.work.graph, key, session, map[c := b.node, d := b.node], a, b);
    var p := PlaceSession(w, cfg, relay, session, at, o);
    assert p == Placed(b.work.(graph := PutEnds(b.work.graph, key, session, a, b)), a, b, false);
    NothingToInfer(p, cfg, key, id, map[c := b.node, d := b.node], at, o);
  }

  /** One relay update with two sessions leaves an edge with a dead end: its two clients first show the same identity,
      then the one shows nothing and the other an identity of its own. */
  lemma DeadEndIsReached(
    cfg: Config, reporter: ReporterId, name: Text, c: Text, d: Text, s: Text, t: Text, id: Text, vni: int, at: Time,
    o: Oracle)
    requires Fair(o) && Named(name) && Named(s) && Named(t) && name != s && name != t && s != t && c != d
    ensures var report := RelayReport(reporter, at, [
        Carries(name, Shown(c, s), Shown(d, s), id, vni, 1), Carries(name, Unshown(c), Shown(d, t), id, vni, 1)]);
      var a := Apply(EMPTY_GRAPH, cfg, report, at, o);
      && a.Some?
      && exists k | k in a.value.graph.edges ::
           k.source !in a.value.graph.nodes || k.target !in a.value.graph.nodes
  {
    var first, second :=
      Carries(name, Shown(c, s), Shown(d, s), id, vni, 1), Carries(name, Unshown(c), Shown(d, t), id, vni, 1);
    var report := RelayReport(reporter, at, [first, second]);
    FirstReport(cfg, reporter, first, second, at, o);
    var relay, x := FirstShared(cfg, reporter, report, name, c, d, s, t, id, vni, 1, at, o);
    var v := RelayOne(Start(reporter), cfg, report, first, at, o);
    var k := DeadEndCounted(v, cfg, report, name, relay, c, d, t, x, id, vni, 1, at, o);
    DeadEndShows(RelayOne(v, cfg, report, second, at, o), cfg, report, k, at);
  }

  lemma FirstShared(
    cfg: Config, reporter: ReporterId, report: Report, name: Text, c: Text, d: Text, s: Text, t: Text, id: Text,
    vni: int, bytes: nat, at: Time, o: Oracle)
    returns (relay: NodeId, x: NodeId)
    requires Fair(o) && Named(name) && Named(s) && name != s && c != d && t != name && t != s
    ensures SharedAlone(
      RelayOne(Start(reporter), cfg, report, Carries(name, Shown(c, s), Shown(d, s), id, vni, bytes), at, o),
      name, ScopeKey(relay, vni), id, c, d, x, t)
  {
    var w := Start(reporter);
    relay, x := SameClientTwice(w, cfg, report, name, c, d, s, id, vni, bytes, at, o);
    AloneFrom(RelayOne(w, cfg, report, Carries(name, Shown(c, s), Shown(d, s), id, vni, bytes), at, o),
              name, ScopeKey(relay, vni), id, c, d, s, x, t);
  }

  lemma AloneFrom(
    v: Work, name: Text, key: ScopeKey, id: Text, c: Text, d: Text, s: Text, x: NodeId, t: Text)
    requires Shared(v.graph, name, key, id, c, d, x) && v.touched == map[] && t != name && t != s
    requires v.graph.aliases.Keys == {StableAlias(name), StableAlias(s)}
    ensures SharedAlone(v, name, key, id, c, d, x, t)
  {
  }

  /** What a reporter's first session leaves if both clients show the same identity: no edge, nothing touched. */
  ghost predicate SharedAlone(v: Work, name: Text, key: ScopeKey, id: Text, c: Text, d: Text, x: NodeId, t: Text) {
    Shared(v.graph, name, key, id, c, d, x) && v.touched == map[] && NodeOf(v.graph, t).None?
  }

  lemma DeadEndShows(w: Work, cfg: Config, report: Report, k: EdgeKey, at: Time)
    requires w.touched.Keys == w.graph.edges.Keys == {k} && (k.source !in w.graph.nodes || k.target !in w.graph.nodes)
    ensures var a := Finish(w, cfg, report, at);
      && a.Some?
      && exists k | k in a.value.graph.edges ::
           k.source !in a.value.graph.nodes || k.target !in a.value.graph.nodes
  {
    FinishKeeps(w, cfg, report, at);
    assert k in Finish(w, cfg, report, at).value.graph.edges;
  }

  lemma DeadEndCounted(
    w: Work, cfg: Config, report: Report, name: Text, relay: NodeId, c: Text, d: Text, t: Text, x: NodeId, id: Text,
    vni: int, bytes: nat, at: Time, o: Oracle)
    returns (k: EdgeKey)
    requires Fair(o) && SharedAlone(w, name, ScopeKey(relay, vni), id, c, d, x, t) && c != d
    requires Named(name) && Named(t) && name != t
    ensures var h := RelayOne(w, cfg, report, Carries(name, Unshown(c), Shown(d, t), id, vni, bytes), at, o);
      && h.touched.Keys == h.graph.edges.Keys == {k}
      && (k.source !in h.graph.nodes || k.target !in h.graph.nodes)
  {
    var session := Carries(name, Unshown(c), Shown(d, t), id, vni, bytes);
    RelayMet(w, cfg, report, session, name, at, o);
    var (met, r) := RelayArrive(w, cfg, report, session, at, o);
    assert r == relay;
    SharedOn(w.graph, met.graph, name, ScopeKey(relay, vni), id, c, d, x);
    DeadSourceResolved(met, cfg, name, relay, c, d, t, x, id, vni, bytes, at, o);
    k := DeadCounted(met, ResolveSession(met, cfg, r, session, at, o), cfg, report, r, session, x, at);
  }

  lemma DeadCounted(
    w: Work, r: SessionResult, cfg: Config, report: Report, relay: NodeId, s: SessionReport, x: NodeId, at: Time)
    returns (k: EdgeKey)
    requires r.source == x && r.target != x && x !in r.work.graph.nodes
    requires r.work.graph.edges == map[] && r.work.touched == w.touched == map[]
    ensures var h := RelaySettle(r, cfg, report, relay, s, at);
      && h.touched.Keys == h.graph.edges.Keys == {k}
      && (k.source !in h.graph.nodes || k.target !in h.graph.nodes)
  {
    Counted(r, cfg, report, relay, s, at);
    k := EdgeOf(r.source, r.target);
  }

  // ---------------------------------------------------------------------------------------------
  // A report without a result
  // ---------------------------------------------------------------------------------------------

  /** A stable ID that names a node is looked up without a change to anything else. */
  lemma KnownAgain(g: Graph, cfg: Config, stable: Text, at: Time, o: Oracle)
    requires Named(stable) && NodeOf(g, stable).Some? && NodeOf(g, stable).value in g.nodes
    ensures var r := Resolve(g, cfg, OnlyStable(stable), at, o);
      r.node == NodeOf(g, stable).value && SameNames(g, r.graph)
  {
    var i, node := OnlyStable(stable), NodeOf(g, stable).value;
    KnownStableMatches(g, cfg, stable, at);
    assert Ascending({node} - {node}) == [];
    assert StrongAliases(i) == [StableAlias(stable)];
    assert AddressAliases(i) == [];
    assert AbsorbIdentity(g, node, i).nodes.Keys == g.nodes.Keys;
    assert BindAliases(AbsorbIdentity(g, node, i), i, node, at).aliases == g.aliases;
  }

  lemma PairRepointed(scope: RelayScope, key: ScopeKey, id: Text, c: Text, a: NodeId, d: Text, b: NodeId, e: NodeId)
    requires Paired(scope, key, id, map[c := a, d := b], a, b) && a != key.relay && a != b
    ensures Paired(RepointScope(scope, e, a), key, id, map[c := e, d := b], e, b)
  {
    assert RepointScope(scope, e, a).sessions[id].clients == map[c := e, d := b];
  }

  /** The first end of the pair is absorbed. */
  lemma EndMergedAway(
    g: Graph, name: Text, key: ScopeKey, id: Text, c: Text, a: NodeId, d: Text, t: Text, b: NodeId, e: NodeId,
    o: Oracle)
    requires Fair(o) && PairKnown(g, name, key, id, c, a, d, t, b)
    requires e in g.nodes && e != a && e != b && e != key.relay
    ensures var h := Merge(g, e, a, o);
      && PairKnown(h, name, key, id, c, e, d, t, b) && a !in h.nodes
        && h.redirects == RepointRedirects(g.redirects, e, a)
  {
    var order := o.scopeOrder(g.scopes);
    assert Enumerates(order, g.scopes.Keys);
    ScopeMovesAlone(g.scopes, order, key, e, a);
    ScopesNameSurvivors(g.scopes, order, e, a);
    OnlyScope(g.scopes, order, key, e, a);
    MergeQuotientsEdges(g, e, a, o);
    PairRepointed(g.scopes[key], key, id, c, a, d, b, e);
    MergedParts(g, e, a, o);
    EndMergedFrom(g, Merge(g, e, a, o), name, key, id, c, a, d, t, b, e);
  }

  lemma EndMergedFrom(
    g: Graph, h: Graph, name: Text, key: ScopeKey, id: Text, c: Text, a: NodeId, d: Text, t: Text, b: NodeId, e: NodeId)
    requires PairKnown(g, name, key, id, c, a, d, t, b) && e in g.nodes && e != a && e != b && e != key.relay
    requires h.nodes.Keys == g.nodes.Keys - {a} && h.aliases == RepointAliases(g.aliases, e, a) && EdgesLive(h)
    requires h.scopes.Keys <= {key} && key in h.scopes && Paired(h.scopes[key], key, id, map[c := e, d := b], e, b)
    ensures PairKnown(h, name, key, id, c, e, d, t, b)
  {
    RepointKeepsNames(g.aliases, g.nodes.Keys, e, a);
  }

  lemma OnlyScope(
    scopes: map<ScopeKey, RelayScope>, order: seq<ScopeKey>, key: ScopeKey, keep: NodeId, remove: NodeId)
    requires WellScoped(scopes) && Enumerates(order, scopes.Keys) && scopes.Keys == {key} && key.relay != remove
    ensures RebuildScopes(scopes, order, keep, remove).Keys <= {key}
  {
    var rebuilt := RebuildScopes(scopes, order, keep, remove);
    RebuiltScopesAreQuotient(scopes, order, keep, remove);
    forall image | image in rebuilt ensures image == key {
      assert ScopeAtImage(rebuilt, scopes, (set k | k in order), image, keep, remove);
    }
  }

  lemma PairMet(
    g: Graph, h: Graph, name: Text, key: ScopeKey, id: Text, c: Text, a: NodeId, d: Text, t: Text, b: NodeId, u: Text,
    e: NodeId)
    requires Tame(g) && PairKnown(g, name, key, id, c, a, d, t, b) && SameRest(g, h) && Met(g, h, u, e)
    requires NodeOf(g, u).None?
    ensures PairKnown(h, name, key, id, c, a, d, t, b) && e in h.nodes && e != a && e != b && e != key.relay
  {
    assert StableAlias(name) != StableAlias(u) && StableAlias(t) != StableAlias(u);
  }

  /** The source shows an identity that is new. */
  lemma SourceMoves(
    w: Work, cfg: Config, name: Text, key: ScopeKey, id: Text, c: Text, a: NodeId, d: Text, t: Text, b: NodeId, u: Text,
    at: Time, o: Oracle)
    requires Fair(o) && Tame(w.graph) && PairKnown(w.graph, name, key, id, c, a, d, t, b) && c != d
    requires Named(u) && NodeOf(w.graph, u).None?
    ensures var (r, tangled) := PlaceClient(w, cfg, key, id, Shown(c, u), at, o);
      && !tangled && r.status == Resolved && r.work.touched == w.touched
      && PairKnown(r.work.graph, name, key, id, c, r.node, d, t, b) && a !in r.work.graph.nodes
  {
    StableMet(w.graph, cfg, u, at, o);
    var m := Resolve(w.graph, cfg, OnlyStable(u), at, o);
    PairMet(w.graph, m.graph, name, key, id, c, a, d, t, b, u, m.node);
    EndMergedAway(m.graph, name, key, id, c, a, d, t, b, m.node, o);
    MovedTo(w, cfg, a, c, u, at, o);
    var r := ResolveClient(w, cfg, Some(a), Shown(c, u), at, o);
    FirstRedirect(m.graph.redirects, m.node, a);
    OneRedirect(w.graph, r.work.graph, key, a, m.node);
    PairPutAgain(r.work.graph, name, key, id, c, m.node, d, t, b, c, m.node);
    PlacedUntangled(w, cfg, key, id, Some(a), Shown(c, u), at, o);
  }

  lemma PairPutAgain(
    g: Graph, name: Text, key: ScopeKey, id: Text, c: Text, a: NodeId, d: Text, t: Text, b: NodeId, client: Text,
    node: NodeId)
    requires PairKnown(g, name, key, id, c, a, d, t, b) && c != d
    requires (client == c && node == a) || (client == d && node == b)
    ensures var h := PutClient(g, key, id, client, node);
      h == g.(scopes := h.scopes) && PairKnown(h, name, key, id, c, a, d, t, b)
  {
    assert map[c := a, d := b][client := node] == map[c := a, d := b];
  }

  /** The target shows what it showed before. */
  lemma TargetStays(
    w: Work, cfg: Config, name: Text, key: ScopeKey, id: Text, c: Text, a: NodeId, d: Text, t: Text, b: NodeId,
    at: Time,
    o: Oracle)
    requires PairKnown(w.graph, name, key, id, c, a, d, t, b) && c != d && Named(t)
    ensures var (r, tangled) := PlaceClient(w, cfg, key, id, Shown(d, t), at, o);
      && !tangled && r.status == Resolved && r.node == b && r.work.touched == w.touched
      && PairKnown(r.work.graph, name, key, id, c, a, d, t, b) && r.work.graph.nodes.Keys == w.graph.nodes.Keys
  {
    assert b in w.graph.nodes;
    KnownAgain(w.graph, cfg, t, at, o);
    ShownAgain(w, cfg, d, t, b, at, o);
    var r := ResolveClient(w, cfg, Some(b), Shown(d, t), at, o);
    QuietlyPlaced(w, cfg, key, id, Shown(d, t), at, o);
    PairSame(w.graph, r.work.graph, name, key, id, c, a, d, t, b);
    PairPutAgain(r.work.graph, name, key, id, c, a, d, t, b, d, b);
  }

  lemma ShownAgain(w: Work, cfg: Config, d: Text, t: Text, b: NodeId, at: Time, o: Oracle)
    requires Named(t) && Resolve(w.graph, cfg, OnlyStable(t), at, o).node == b
    ensures var r := ResolveClient(w, cfg, Some(b), Shown(d, t), at, o);
      && r.node == b && r.status == Resolved && r.work.touched == w.touched
      && r.work.graph == Resolve(w.graph, cfg, OnlyStable(t), at, o).graph
  {
    assert StrongAliases(OnlyStable(t)) == [StableAlias(t)];
  }

  lemma PairSame(
    g: Graph, h: Graph, name: Text, key: ScopeKey, id: Text, c: Text, a: NodeId, d: Text, t: Text, b: NodeId)
    requires PairKnown(g, name, key, id, c, a, d, t, b) && SameNames(g, h)
    ensures PairKnown(h, name, key, id, c, a, d, t, b)
  {
  }

  /** The pair is seen again, and completes no session. */
  lemma PairSeenAgain(
    p: Placed, cfg: Config, key: ScopeKey, id: Text, clients: map<Text, NodeId>, a: NodeId, b: NodeId, at: Time,
    o: Oracle)
    requires !p.tangled && p.source.status == Resolved && p.target.status == Resolved && a != b
    requires p.source.node == a && p.target.node == b
    requires key in p.work.graph.scopes && Paired(p.work.graph.scopes[key], key, id, clients, a, b)
    ensures var r := SettlePair(p.work.graph, cfg, key, p, at, o);
      && !r.tangled && r.graph == p.work.graph.(scopes := r.graph.scopes)
      && EndsOf(r, key, id, p, o) == (a, b)
  {
  }

  lemma PairEntered(
    w: Work, name: Text, key: ScopeKey, id: Text, c: Text, a: NodeId, d: Text, t: Text, b: NodeId, at: Time)
    requires PairKnown(w.graph, name, key, id, c, a, d, t, b)
    ensures var h := EnterSession(w, key, id, at);
      && h.touched == w.touched && h.graph == w.graph.(scopes := h.graph.scopes)
      && PairKnown(h.graph, name, key, id, c, a, d, t, b)
  {
  }

  lemma PairPutEnds(
    g: Graph, name: Text, key: ScopeKey, s: SessionReport, c: Text, a: ClientResult, d: Text, t: Text, b: ClientResult)
    requires PairKnown(g, name, key, s.id, c, a.node, d, t, b.node)
    ensures var h := PutEnds(g, key, s, a, b);
      h == g.(scopes := h.scopes) && PairKnown(h, name, key, s.id, c, a.node, d, t, b.node)
  {
  }

  lemma EndRenamed(
    w: Work, cfg: Config, name: Text, relay: NodeId, c: Text, a: NodeId, d: Text, t: Text, b: NodeId, u: Text, id: Text,
    vni: int, bytes: nat, at: Time, o: Oracle)
    requires Fair(o) && Tame(w.graph) && PairKnown(w.graph, name, ScopeKey(relay, vni), id, c, a, d, t, b) && c != d
    requires Named(t) && Named(u) && NodeOf(w.graph, u).None?
    ensures var r := ResolveSession(w, cfg, relay, Carries(name, Shown(c, u), Shown(d, t), id, vni, bytes), at, o);
      && r.source != r.target && r.source != a && r.target != a && r.work.touched == w.touched
      && EdgesLive(r.work.graph) && a !in r.work.graph.nodes
  {
    var key := ScopeKey(relay, vni);
    var session := Carries(name, Shown(c, u), Shown(d, t), id, vni, bytes);
    var entered := EnterSession(w, key, id, at);
    PairEntered(w, name, key, id, c, a, d, t, b, at);
    SourceMoves(entered, cfg, name, key, id, c, a, d, t, b, u, at, o);
    var (e, _) := PlaceClient(entered, cfg, key, id, Shown(c, u), at, o);
    TargetStays(e.work, cfg, name, key, id, c, e.node, d, t, b, at, o);
    var (f, _) := PlaceClient(e.work, cfg, key, id, Shown(d, t), at, o);
    PairPutEnds(f.work.graph, name, key, session, c, e, d, t, f);
    var p := PlaceSession(w, cfg, relay, session, at, o);
    assert p == Placed(f.work.(graph := PutEnds(f.work.graph, key, session, e, f)), e, f, false);
    PairSeenAgain(p, cfg, key, id, map[c := e.node, d := b], e.node, b, at, o);
  }

  /** An edge that was touched before one of its ends was absorbed is looked for in vain. */
  lemma TouchedInVain(
    w: Work, cfg: Config, report: Report, name: Text, relay: NodeId, c: Text, a: NodeId, d: Text, t: Text, b: NodeId,
    u: Text, id: Text, vni: int, bytes: nat, at: Time, o: Oracle)
    requires Fair(o) && Tame(w.graph) && PairKnown(w.graph, name, ScopeKey(relay, vni), id, c, a, d, t, b) && c != d
    requires Named(name) && Named(t) && Named(u) && NodeOf(w.graph, u).None? && name != u && EdgeOf(a, b) in w.touched
    ensures var h := RelayOne(w, cfg, report, Carries(name, Shown(c, u), Shown(d, t), id, vni, bytes), at, o);
      EdgeOf(a, b) in h.touched && EdgeOf(a, b) !in h.graph.edges
  {
    var session := Carries(name, Shown(c, u), Shown(d, t), id, vni, bytes);
    RelayMet(w, cfg, report, session, name, at, o);
    var (met, r) := RelayArrive(w, cfg, report, session, at, o);
    assert r == relay;
    PairMetAgain(w.graph, met.graph, name, ScopeKey(relay, vni), id, c, a, d, t, b);
    EndRenamed(met, cfg, name, relay, c, a, d, t, b, u, id, vni, bytes, at, o);
    LostCounted(met, ResolveSession(met, cfg, r, session, at, o), cfg, report, r, session, a, b, at);
  }

  lemma LostCounted(
    w: Work, r: SessionResult, cfg: Config, report: Report, relay: NodeId, s: SessionReport, a: NodeId, b: NodeId,
    at: Time)
    requires r.source != r.target && r.source != a && r.target != a && r.work.touched == w.touched
    requires EdgesLive(r.work.graph) && a !in r.work.graph.nodes && EdgeOf(a, b) in w.touched
    ensures var h := RelaySettle(r, cfg, report, relay, s, at);
      EdgeOf(a, b) in h.touched && EdgeOf(a, b) !in h.graph.edges
  {
    Counted(r, cfg, report, relay, s, at);
    NoEdgeOf(r.work.graph, a, b);
  }

  lemma PairMetAgain(
    g: Graph, h: Graph, name: Text, key: ScopeKey, id: Text, c: Text, a: NodeId, d: Text, t: Text, b: NodeId)
    requires PairKnown(g, name, key, id, c, a, d, t, b) && SameRest(g, h) && Met(g, h, name, key.relay)
    ensures PairKnown(h, name, key, id, c, a, d, t, b)
  {
    assert h.nodes.Keys == g.nodes.Keys;
  }

  lemma NoEdgeOf(g: Graph, a: NodeId, b: NodeId)
    requires EdgesLive(g) && a !in g.nodes
    ensures EdgeOf(a, b) !in g.edges
  {
  }

  /** One relay update with two sessions has no result: between the two a client shows another identity than before,
      and the edge that the first has touched is gone. */
  lemma FailureIsReached(
    cfg: Config, reporter: ReporterId, name: Text, c: Text, d: Text, s: Text, t: Text, u: Text, id: Text, vni: int,
    at: Time, o: Oracle)
    requires Fair(o) && Named(name) && Named(s) && Named(t) && Named(u) && c != d
    requires name != s && name != t && name != u && s != t && s != u && t != u
    ensures var report := RelayReport(reporter, at, [
        Carries(name, Shown(c, s), Shown(d, t), id, vni, 1), Carries(name, Shown(c, u), Shown(d, t), id, vni, 1)]);
      Apply(EMPTY_GRAPH, cfg, report, at, o) == None
  {
    var first, second :=
      Carries(name, Shown(c, s), Shown(d, t), id, vni, 1), Carries(name, Shown(c, u), Shown(d, t), id, vni, 1);
    var report := RelayReport(reporter, at, [first, second]);
    FirstReport(cfg, reporter, first, second, at, o);
    var key, a, b := FirstReported(cfg, reporter, report, name, c, s, d, t, id, vni, 1, at, o);
    var v := RelayOne(Start(reporter), cfg, report, first, at, o);
    StillUnknown(v, name, key, id, c, s, a, d, t, b, PerSecond(1, 1000), at, u);
    TouchedInVain(v, cfg, report, name, key.relay, c, a, d, t, b, u, id, vni, 1, at, o);
    FinishFails(RelayOne(v, cfg, report, second, at, o), cfg, report, EdgeOf(a, b), at);
  }

  lemma StillUnknown(
    v: Work, name: Text, key: ScopeKey, id: Text, c: Text, s: Text, a: NodeId, d: Text, t: Text, b: NodeId, rate: real,
    at: Time, u: Text)
    requires OneReported(v, name, key, id, c, s, a, d, t, b, rate, at) && u != name && u != s && u != t
    ensures NodeOf(v.graph, u).None? && EdgeOf(a, b) in v.touched
  {
  }

  lemma FinishFails(w: Work, cfg: Config, report: Report, k: EdgeKey, at: Time)
    requires k in w.touched && k !in w.graph.edges
    ensures Finish(w, cfg, report, at) == None
  {
  }
}
