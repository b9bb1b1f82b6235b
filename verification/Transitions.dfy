/** The transition log over whole runs. A report advances the log of an edge by at most one observation, however
    many nodes it and other steps merge, as long as the ends of that edge neither absorb a node nor are absorbed;
    so over any run the log of such an edge never stutters. */
module Transitions {
  import opened Names
  import opened Evidence
  import opened Admission
  import opened Canonical
  import opened Invariants
  import opened Quotient
  import opened Pairing
  import opened Reports
  import opened DeviceDirectory
  import opened Untouched

  /** What a report remembers of the edge, if it touched it, is what was known when it began. */
  ghost predicate AsKnown(w: Work, k: EdgeKey) {
    k in w.touched ==> w.touched[k] == KnownOf(w.graph, k)
  }

  ghost predicate Carries(w: Work, h: Work, k: EdgeKey) {
    Stays(w.graph, h.graph, k) && (AsKnown(w, k) ==> AsKnown(h, k))
  }

  /** A step is harmless to an edge if, unless it merged one of its ends, it leaves what is known alone. */
  ghost predicate Harmless(k: EdgeKey, w: Work, h: Work) {
    && Absorbs(w.graph, h.graph)
    && (Sane(w.graph) && Aside(w.graph, h.graph, k) ==> Carries(w, h, k))
  }

  lemma HarmlessOn(k: EdgeKey, u: Work, v: Work, w: Work)
    requires Harmless(k, u, v) && Harmless(k, v, w)
    ensures Harmless(k, u, w)
  {
    AbsorbsOn(u.graph, v.graph, w.graph, k);
  }

  lemma SameEdges(k: EdgeKey, w: Work, h: Work)
    requires SameIds(w.graph, h.graph) && h.graph.edges == w.graph.edges && h.touched == w.touched
    ensures Harmless(k, w, h)
  {
    SameEdgesSpare(w.graph, h.graph, k);
  }

  lemma IdsHarmless(k: EdgeKey, w: Work, h: Graph)
    requires SameIds(w.graph, h) && h.edges == w.graph.edges
    ensures Harmless(k, w, w.(graph := h))
  {
    SameEdges(k, w, w.(graph := h));
  }

  lemma ScopesHarmless(k: EdgeKey, w: Work, scopes: map<ScopeKey, RelayScope>)
    ensures Harmless(k, w, w.(graph := w.graph.(scopes := scopes)))
  {
    IdsHarmless(k, w, w.graph.(scopes := scopes));
  }

  /** Edges may change, but not in what is known of them. */
  ghost predicate SameKnown(g: Graph, h: Graph) {
    SameIds(g, h) && (Sane(g) ==> Sane(h)) && forall k :: Stays(g, h, k)
  }

  lemma KnownHarmless(k: EdgeKey, w: Work, h: Graph)
    requires SameKnown(w.graph, h)
    ensures Harmless(k, w, w.(graph := h))
  {
    if Sane(w.graph) {
      SameRedirectsFollow(w.graph, h);
    }
  }

  lemma SparedHarmless(k: EdgeKey, w: Work, g: Graph, canonical: bool)
    requires Spares(w.graph, g, k)
    ensures Harmless(k, w, w.(graph := g, canonical := canonical))
  {
  }

  lemma ResolveHarmless(k: EdgeKey, w: Work, cfg: Config, identity: NodeIdentity, at: Time, o: Oracle)
    requires Fair(o)
    ensures Harmless(k, w, ResolveIn(w, cfg, identity, at, o).0)
  {
    ResolveSpares(w.graph, cfg, identity, at, o, k);
    var r := Resolve(w.graph, cfg, identity, at, o);
    SparedHarmless(k, w, r.graph, w.canonical || r.canonical);
  }

  // ---------------------------------------------------------------------------------------------
  // The steps of a report
  // ---------------------------------------------------------------------------------------------

  lemma TouchHarmless(k: EdgeKey, w: Work, key: EdgeKey, node: NodeId)
    ensures Harmless(k, w, TouchEdge(w, key)) && Harmless(k, w, TouchObserverEdges(w, node))
  {
    SameEdgesSpare(w.graph, w.graph, k);
  }

  lemma PutHarmless(
    k: EdgeKey, w: Work, cfg: Config, key: EdgeKey, observation: Observation, a: NodeId, b: NodeId, at: Time,
    traffic: seq<Traffic>)
    requires key.source <= key.target && at > NEVER
    ensures Harmless(k, w, w.(graph := MarkSystem(PutObservation(w.graph, key, observation, at), cfg, key, a, b),
                              traffic := traffic))
  {
    var h := MarkSystem(PutObservation(w.graph, key, observation, at), cfg, key, a, b);
    PutKnown(w.graph, cfg, key, observation, a, b, at);
    KnownHarmless(k, w, h);
    SameEdges(k, w.(graph := h), w.(graph := h, traffic := traffic));
    HarmlessOn(k, w, w.(graph := h), w.(graph := h, traffic := traffic));
  }

  lemma PutKnown(g: Graph, cfg: Config, key: EdgeKey, observation: Observation, a: NodeId, b: NodeId, at: Time)
    requires key.source <= key.target && at > NEVER
    ensures SameKnown(g, MarkSystem(PutObservation(g, key, observation, at), cfg, key, a, b))
  {
    var h := MarkSystem(PutObservation(g, key, observation, at), cfg, key, a, b);
    var system := MarkedAs(g, cfg, key, observation, a, b, at);
    PutStays(g.edges, h.edges, key, observation, at, system);
    if Sane(g) {
      PutTidy(g.edges, key, observation, at, system);
    }
    forall k ensures Stays(g, h, k) {
      assert KnownIn(h.edges, k) == KnownIn(g.edges, k);
    }
  }

  lemma MarkedAs(g: Graph, cfg: Config, key: EdgeKey, observation: Observation, a: NodeId, b: NodeId, at: Time)
    returns (system: bool)
    ensures var h := MarkSystem(PutObservation(g, key, observation, at), cfg, key, a, b);
      && SameIds(g, h) && h.edges == g.edges[key := Put(g.edges, key, observation, at, system)]
  {
    var put := PutObservation(g, key, observation, at);
    system := MarkSystem(put, cfg, key, a, b).edges[key].system;
    assert put.edges == g.edges[key := Put(g.edges, key, observation, at, EdgeIn(g.edges, key).system)];
    MarkedSame(put, cfg, key, a, b);
  }

  lemma MarkedSame(g: Graph, cfg: Config, key: EdgeKey, a: NodeId, b: NodeId)
    requires key in g.edges
    ensures var h := MarkSystem(g, cfg, key, a, b);
      SameIds(g, h) && key in h.edges && h.edges == g.edges[key := g.edges[key].(system := h.edges[key].system)]
  {
  }

  function KnownIn(edges: map<EdgeKey, Edge>, k: EdgeKey): Option<Evidence> {
    if k in edges then edges[k].lastKnown else None
  }

  lemma PutStays(
    before: map<EdgeKey, Edge>, after: map<EdgeKey, Edge>, key: EdgeKey, observation: Observation, at: Time,
    system: bool)
    requires after == before[key := Put(before, key, observation, at, system)]
    ensures forall k :: KnownIn(after, k) == KnownIn(before, k) && (k in before ==> k in after)
  {
  }

  function Put(edges: map<EdgeKey, Edge>, key: EdgeKey, observation: Observation, at: Time, system: bool): Edge {
    var edge := EdgeIn(edges, key);
    edge.(observations := edge.observations[observation.observer := observation],
          lastActive := Later(at, edge.lastActive), system := system)
  }

  lemma PutTidy(edges: map<EdgeKey, Edge>, key: EdgeKey, observation: Observation, at: Time, system: bool)
    requires WellKeyed(edges) && Tidy(edges) && key.source <= key.target && at > NEVER
    ensures var after := edges[key := Put(edges, key, observation, at, system)]; WellKeyed(after) && Tidy(after)
  {
    var after := edges[key := Put(edges, key, observation, at, system)];
    forall j | j in after ensures KeyedAs(j, after[j]) && TidyEdge(after[j], j) {
      if j in edges {
        assert KeyedAs(j, edges[j]) && TidyEdge(edges[j], j);
      }
    }
  }

  lemma WithdrawHarmless(k: EdgeKey, w: Work, cfg: Config, report: Report, ob: ObserverReport, at: Time)
    ensures Harmless(k, w, WithdrawOne(w, cfg, report, ob, at))
  {
    var found := Lookup(w.graph, cfg, ob.observer, at);
    if found.Some? && found.value in w.graph.observers
      && w.graph.observers[found.value].owner == Some(report.reporter) {
      var node := found.value;
      var touched := w.(graph := TouchObserver(w.graph, node, CollectionTime(ob, report.collectedAt), at));
      SameEdges(k, w, touched);
      TouchHarmless(k, touched, EdgeKey(0, 0), node);
      var marked := TouchObserverEdges(touched, node);
      HarmlessOn(k, w, touched, marked);
      WithdrawnKnown(marked.graph, report.reporter, node, at);
      KnownHarmless(k, marked, Withdraw(marked.graph, report.reporter, node, at));
      SameEdges(k, marked.(graph := Withdraw(marked.graph, report.reporter, node, at)),
        WithdrawOne(w, cfg, report, ob, at));
      HarmlessOn(k, marked, marked.(graph := Withdraw(marked.graph, report.reporter, node, at)),
        WithdrawOne(w, cfg, report, ob, at));
      HarmlessOn(k, w, marked, WithdrawOne(w, cfg, report, ob, at));
    }
  }

  lemma WithdrawnKnown(g: Graph, reporter: ReporterId, node: NodeId, at: Time)
    ensures SameKnown(g, Withdraw(g, reporter, node, at))
  {
    var h := Withdraw(g, reporter, node, at);
    if Sane(g) {
      forall j | j in h.edges ensures KeyedAs(j, h.edges[j]) && TidyEdge(h.edges[j], j) {
        assert KeyedAs(j, g.edges[j]) && TidyEdge(g.edges[j], j);
      }
    }
  }

  lemma {:induction false} WithdrawAllHarmless(k: EdgeKey, w: Work, cfg: Config, report: Report,
      obs: seq<ObserverReport>, at: Time)
    ensures Harmless(k, w, WithdrawAll(w, cfg, report, obs, at))
  {
    if |obs| > 0 {
      var before := WithdrawAll(w, cfg, report, obs[..|obs| - 1], at);
      WithdrawAllHarmless(k, w, cfg, report, obs[..|obs| - 1], at);
      WithdrawHarmless(k, before, cfg, report, obs[|obs| - 1], at);
      HarmlessOn(k, w, before, WithdrawAll(w, cfg, report, obs, at));
    }
  }

  lemma ListPeerHarmless(k: EdgeKey, l: Listing, cfg: Config, peer: PeerObservation, collectedAt: Time, at: Time,
      o: Oracle)
    requires Fair(o)
    ensures Harmless(k, l.work, ListPeer(l, cfg, peer, collectedAt, at, o).work)
  {
    var (resolved, r) := ResolveIn(l.work, cfg, peer.peer, at, o);
    ResolveHarmless(k, l.work, cfg, peer.peer, at, o);
    SeenHarmless(k, resolved, r.node, collectedAt, at);
    HarmlessOn(k, l.work, resolved, ListPeer(l, cfg, peer, collectedAt, at, o).work);
  }

  /** Noting when a node was last seen touches no edge. */
  lemma SeenHarmless(k: EdgeKey, w: Work, node: NodeId, collectedAt: Time, at: Time)
    ensures Harmless(k, w, w.(graph := TouchCollected(w.graph, node, collectedAt)))
    ensures Harmless(k, w, w.(graph := TouchPeer(TouchCollected(w.graph, node, collectedAt), node, at)))
  {
    SeenIds(w.graph, node, collectedAt, at);
    IdsHarmless(k, w, TouchCollected(w.graph, node, collectedAt));
    IdsHarmless(k, w, TouchPeer(TouchCollected(w.graph, node, collectedAt), node, at));
  }

  lemma CollectedIds(g: Graph, node: NodeId, at: Time)
    ensures var h := TouchCollected(g, node, at); SameIds(g, h) && h.edges == g.edges
  {
  }

  lemma PeerIds(g: Graph, node: NodeId, at: Time)
    ensures var h := TouchPeer(g, node, at); SameIds(g, h) && h.edges == g.edges
  {
  }

  lemma SeenIds(g: Graph, node: NodeId, collectedAt: Time, at: Time)
    ensures var h := TouchCollected(g, node, collectedAt); SameIds(g, h) && h.edges == g.edges
    ensures var h := TouchPeer(TouchCollected(g, node, collectedAt), node, at); SameIds(g, h) && h.edges == g.edges
  {
    CollectedIds(g, node, collectedAt);
    PeerIds(TouchCollected(g, node, collectedAt), node, at);
  }

  lemma {:induction false} ListPeersHarmless(
    k: EdgeKey, w: Work, cfg: Config, node: NodeId, peers: seq<PeerObservation>, collectedAt: Time, at: Time, o: Oracle)
    requires Fair(o)
    ensures Harmless(k, w, ListPeers(w, cfg, node, peers, collectedAt, at, o).work)
  {
    if |peers| > 0 {
      var before := ListPeers(w, cfg, node, peers[..|peers| - 1], collectedAt, at, o);
      ListPeersHarmless(k, w, cfg, node, peers[..|peers| - 1], collectedAt, at, o);
      ListPeerHarmless(k, before, cfg, peers[|peers| - 1], collectedAt, at, o);
      HarmlessOn(k, w, before.work, ListPeers(w, cfg, node, peers, collectedAt, at, o).work);
    }
  }

  lemma PairHarmless(
    k: EdgeKey, w: Work, cfg: Config, node: NodeId, peerNode: NodeId, path: Path, collectedAt: Time, at: Time,
    o: Oracle)
    requires Fair(o)
    ensures Harmless(k, w, PairThroughRelay(w, cfg, node, peerNode, path, collectedAt, at, o))
  {
    if path.kind == PeerRelay && path.vni.Some? && path.stable != EMPTY {
      var (resolved, r) := ResolveIn(w, cfg, NO_IDENTITY.(stable := path.stable), at, o);
      ResolveHarmless(k, w, cfg, NO_IDENTITY.(stable := path.stable), at, o);
      SeenHarmless(k, resolved, r.node, collectedAt, at);
      var collected := resolved.(graph := TouchCollected(resolved.graph, r.node, collectedAt));
      var paired := PairThroughRelay(w, cfg, node, peerNode, path, collectedAt, at, o);
      var pairs := RecordedIsInferred(collected.graph, cfg, r.node, path.vni.value, node, peerNode, at, o);
      InferenceSpares(collected.graph, paired.graph, pairs, o, k);
      SparedHarmless(k, collected, paired.graph, paired.canonical);
      HarmlessOn(k, w, resolved, collected);
      HarmlessOn(k, w, collected, paired);
    }
  }

  lemma SampleHarmless(
    k: EdgeKey, w: Work, cfg: Config, node: NodeId, peer: PeerObservation, collectedAt: Time, at: Time, o: Oracle)
    requires Fair(o) && at > NEVER
    ensures Harmless(k, w, SamplePeer(w, cfg, node, peer, collectedAt, at, o))
  {
    if !(peer.rx == 0 && peer.tx == 0) {
      var (resolved, r) := ResolveIn(w, cfg, peer.peer, at, o);
      ResolveHarmless(k, w, cfg, peer.peer, at, o);
      var seen := resolved.(graph := TouchPeer(TouchCollected(resolved.graph, r.node, collectedAt), r.node, at));
      SeenHarmless(k, resolved, r.node, collectedAt, at);
      var key := EdgeOf(node, r.node);
      var touched := TouchEdge(seen, key);
      TouchHarmless(k, seen, key, node);
      var paired := PairThroughRelay(touched, cfg, node, r.node, peer.path, collectedAt, at, o);
      PairHarmless(k, touched, cfg, node, r.node, peer.path, collectedAt, at, o);
      var sampled := SamplePeer(w, cfg, node, peer, collectedAt, at, o);
      PutHarmless(k, paired, cfg, key, PeerSample(node, peer, collectedAt, at), node, r.node, at, sampled.traffic);
      HarmlessOn(k, w, resolved, seen);
      HarmlessOn(k, w, seen, touched);
      HarmlessOn(k, w, touched, paired);
      HarmlessOn(k, w, paired, sampled);
    }
  }

  lemma {:induction false} SamplesHarmless(
    k: EdgeKey, w: Work, cfg: Config, node: NodeId, peers: seq<PeerObservation>, collectedAt: Time, at: Time, o: Oracle)
    requires Fair(o) && at > NEVER
    ensures Harmless(k, w, SamplePeers(w, cfg, node, peers, collectedAt, at, o))
  {
    if |peers| > 0 {
      var before := SamplePeers(w, cfg, node, peers[..|peers| - 1], collectedAt, at, o);
      SamplesHarmless(k, w, cfg, node, peers[..|peers| - 1], collectedAt, at, o);
      SampleHarmless(k, before, cfg, node, peers[|peers| - 1], collectedAt, at, o);
      HarmlessOn(k, w, before, SamplePeers(w, cfg, node, peers, collectedAt, at, o));
    }
  }

  lemma ArriveHarmless(k: EdgeKey, w: Work, cfg: Config, report: Report, ob: ObserverReport, at: Time, o: Oracle)
    requires Fair(o)
    ensures Harmless(k, w, Arrive(w, cfg, report, ob, at, o).0)
  {
    var (resolved, r) := ResolveIn(w, cfg, ob.observer, at, o);
    ResolveHarmless(k, w, cfg, ob.observer, at, o);
    ClaimedHarmless(k, resolved, r.node, CollectionTime(ob, report.collectedAt), report.reporter, at);
    HarmlessOn(k, w, resolved, Arrive(w, cfg, report, ob, at, o).0);
  }

  /** Nor does a claim. */
  lemma ClaimedHarmless(k: EdgeKey, w: Work, node: NodeId, collectedAt: Time, reporter: ReporterId, at: Time)
    ensures var g := TouchCollected(w.graph, node, collectedAt);
      && Harmless(k, w, w.(graph := TouchObserver(g, node, collectedAt, at)))
      && Harmless(k, w, w.(graph := TouchObserver(Claim(g, reporter, node), node, collectedAt, at)))
      && Harmless(k, w, w.(graph := Claim(TouchObserver(g, node, collectedAt, at), reporter, node)))
  {
    var g := TouchCollected(w.graph, node, collectedAt);
    SeenIds(w.graph, node, collectedAt, at);
    ClaimIds(g, node, collectedAt, reporter, at);
    IdsHarmless(k, w, TouchObserver(g, node, collectedAt, at));
    IdsHarmless(k, w, TouchObserver(Claim(g, reporter, node), node, collectedAt, at));
    IdsHarmless(k, w, Claim(TouchObserver(g, node, collectedAt, at), reporter, node));
  }

  lemma ClaimIds(g: Graph, node: NodeId, collectedAt: Time, reporter: ReporterId, at: Time)
    ensures var h := TouchObserver(g, node, collectedAt, at); SameIds(g, h) && h.edges == g.edges
    ensures var h := TouchObserver(Claim(g, reporter, node), node, collectedAt, at); SameIds(g, h) && h.edges == g.edges
    ensures var h := Claim(TouchObserver(g, node, collectedAt, at), reporter, node); SameIds(g, h) && h.edges == g.edges
  {
    ObserverIds(g, node, collectedAt, at);
    ClaimedIds(g, reporter, node);
    ObserverIds(Claim(g, reporter, node), node, collectedAt, at);
    ClaimedIds(TouchObserver(g, node, collectedAt, at), reporter, node);
  }

  lemma ObserverIds(g: Graph, node: NodeId, collectedAt: Time, at: Time)
    ensures var h := TouchObserver(g, node, collectedAt, at); SameIds(g, h) && h.edges == g.edges
  {
  }

  lemma ClaimedIds(g: Graph, reporter: ReporterId, node: NodeId)
    ensures var h := Claim(g, reporter, node); SameIds(g, h) && h.edges == g.edges
  {
  }

  lemma InventoryKnown(g: Graph, held: Held, node: NodeId, generation: Text, members: set<NodeId>)
    ensures SameKnown(g, ReplaceHeld(g, held, node, generation, members))
  {
    var h := ReplaceHeld(g, held, node, generation, members);
    if Sane(g) {
      forall j | j in h.edges ensures KeyedAs(j, h.edges[j]) && TidyEdge(h.edges[j], j) {
        assert KeyedAs(j, g.edges[j]) && TidyEdge(g.edges[j], j);
      }
    }
  }

  lemma ObserveHarmless(k: EdgeKey, w: Work, cfg: Config, report: Report, ob: ObserverReport, at: Time, o: Oracle)
    requires Fair(o) && at > NEVER
    ensures var h := ObserveOne(w, cfg, report, ob, at, o); h.Some? ==> Harmless(k, w, h.value)
  {
    var collectedAt := CollectionTime(ob, report.collectedAt);
    ArriveHarmless(k, w, cfg, report, ob, at, o);
    var (here, node) := Arrive(w, cfg, report, ob, at, o);
    if node in here.graph.observers && (report.kind == Hello || report.kind == InventoryUpdate) {
      var listing := ListPeers(here, cfg, node, ob.peers, collectedAt, at, o);
      ListPeersHarmless(k, here, cfg, node, ob.peers, collectedAt, at, o);
      var marked := TouchObserverEdges(listing.work, node);
      TouchHarmless(k, listing.work, EdgeKey(0, 0), node);
      HarmlessOn(k, w, here, listing.work);
      HarmlessOn(k, w, listing.work, marked);
      InventoryKnown(marked.graph, listing.held, node, ob.generation, listing.members);
      KnownHarmless(k, marked, ReplaceHeld(marked.graph, listing.held, node, ob.generation, listing.members));
      HarmlessOn(k, w, marked, ObserveOne(w, cfg, report, ob, at, o).value);
    } else if node in here.graph.observers {
      var noted := here.(resync := here.resync || here.graph.observers[node].generation != ob.generation);
      SameEdges(k, here, noted);
      SamplesHarmless(k, noted, cfg, node, ob.peers, collectedAt, at, o);
      HarmlessOn(k, w, here, noted);
      HarmlessOn(k, w, noted, SamplePeers(noted, cfg, node, ob.peers, collectedAt, at, o));
    }
  }

  lemma {:induction false} ObserveAllHarmless(
    k: EdgeKey, w: Work, cfg: Config, report: Report, obs: seq<ObserverReport>, at: Time, o: Oracle)
    requires Fair(o) && at > NEVER
    ensures var h := ObserveReports(w, cfg, report, obs, at, o); h.Some? ==> Harmless(k, w, h.value)
  {
    if |obs| > 0 {
      var before := ObserveReports(w, cfg, report, obs[..|obs| - 1], at, o);
      ObserveAllHarmless(k, w, cfg, report, obs[..|obs| - 1], at, o);
      if before.Some? {
        ObserveHarmless(k, before.value, cfg, report, obs[|obs| - 1], at, o);
        var h := ObserveOne(before.value, cfg, report, obs[|obs| - 1], at, o);
        if h.Some? {
          HarmlessOn(k, w, before.value, h.value);
        }
      }
    }
  }

  lemma ClientHarmless(k: EdgeKey, w: Work, cfg: Config, existing: Option<NodeId>, c: RelayClient, at: Time, o: Oracle)
    requires Fair(o)
    ensures Harmless(k, w, ResolveClient(w, cfg, existing, c, at, o).work)
  {
    var placed := ResolveClient(w, cfg, existing, c, at, o).work;
    if c.identity.Some? && StatusOf(c.identity.value) == Resolved {
      var (resolved, r) := ResolveIn(w, cfg, c.identity.value, at, o);
      ResolveHarmless(k, w, cfg, c.identity.value, at, o);
      if existing.Some? && existing.value != r.node {
        MergeSpares(resolved.graph, r.node, existing.value, o, k);
      } else {
        SameEdgesSpare(resolved.graph, resolved.graph, k);
      }
      SparedHarmless(k, resolved, placed.graph, placed.canonical);
      HarmlessOn(k, w, resolved, placed);
    } else if existing.Some? {
      SameEdges(k, w, placed);
    } else {
      assert o.newId(w.graph) !in Known(w.graph);
      GrowSpares(w.graph, placed.graph, o.newId(w.graph), k);
      SparedHarmless(k, w, placed.graph, true);
    }
  }

  lemma PlaceClientHarmless(
    k: EdgeKey, w: Work, cfg: Config, key: ScopeKey, id: Text, c: RelayClient, at: Time, o: Oracle)
    requires Fair(o)
    ensures Harmless(k, w, PlaceClient(w, cfg, key, id, c, at, o).0.work)
  {
    var r := ResolveClient(w, cfg, ClientNode(w.graph, key, id, c.id), c, at, o);
    ClientHarmless(k, w, cfg, ClientNode(w.graph, key, id, c.id), c, at, o);
    var placed := PlaceClient(w, cfg, key, id, c, at, o).0.work;
    PutClientScopes(r.work.graph, key, id, c.id, r.node);
    ScopesHarmless(k, r.work, placed.graph.scopes);
    assert placed == r.work.(graph := r.work.graph.(scopes := placed.graph.scopes));
    HarmlessOn(k, w, r.work, placed);
  }

  lemma PutClientScopes(g: Graph, key: ScopeKey, id: Text, client: Text, node: NodeId)
    ensures PutClient(g, key, id, client, node) == g.(scopes := PutClient(g, key, id, client, node).scopes)
  {
  }

  lemma PutEndsScopes(g: Graph, key: ScopeKey, s: SessionReport, a: ClientResult, b: ClientResult)
    ensures PutEnds(g, key, s, a, b) == g.(scopes := PutEnds(g, key, s, a, b).scopes)
  {
  }

  lemma PlaceHarmless(k: EdgeKey, w: Work, cfg: Config, relay: NodeId, s: SessionReport, at: Time, o: Oracle)
    requires Fair(o)
    ensures Harmless(k, w, PlaceSession(w, cfg, relay, s, at, o).work)
  {
    var key := ScopeKey(relay, s.vni);
    var entered := EnterSession(w, key, s.id, at);
    SameEdges(k, w, entered);
    PlaceClientHarmless(k, entered, cfg, key, s.id, s.source, at, o);
    var (a, _) := PlaceClient(entered, cfg, key, s.id, s.source, at, o);
    PlaceClientHarmless(k, a.work, cfg, key, s.id, s.target, at, o);
    var (b, _) := PlaceClient(a.work, cfg, key, s.id, s.target, at, o);
    var placed := PlaceSession(w, cfg, relay, s, at, o).work;
    PutEndsScopes(b.work.graph, key, s, a, b);
    ScopesHarmless(k, b.work, placed.graph.scopes);
    assert placed == b.work.(graph := b.work.graph.(scopes := placed.graph.scopes));
    HarmlessOn(k, w, entered, a.work);
    HarmlessOn(k, w, a.work, b.work);
    HarmlessOn(k, w, b.work, placed);
  }

  lemma SessionHarmless(k: EdgeKey, w: Work, cfg: Config, relay: NodeId, s: SessionReport, at: Time, o: Oracle)
    requires Fair(o)
    ensures Harmless(k, w, ResolveSession(w, cfg, relay, s, at, o).work)
  {
    PlaceHarmless(k, w, cfg, relay, s, at, o);
    var p := PlaceSession(w, cfg, relay, s, at, o);
    var settled := SettlePair(p.work.graph, cfg, ScopeKey(relay, s.vni), p, at, o);
    var pairs := SettledIsInferred(p.work.graph, cfg, ScopeKey(relay, s.vni), p, at, o);
    InferenceSpares(p.work.graph, settled.graph, pairs, o, k);
    SparedHarmless(k, p.work, settled.graph, p.work.canonical || settled.changed);
    HarmlessOn(k, w, p.work, ResolveSession(w, cfg, relay, s, at, o).work);
  }

  lemma SettleHarmless(k: EdgeKey, session: SessionResult, cfg: Config, report: Report, relay: NodeId, s: SessionReport,
      at: Time)
    requires at > NEVER
    ensures Harmless(k, session.work, RelaySettle(session, cfg, report, relay, s, at))
  {
    var a, b := session.source, session.target;
    var known := session.work.(graph :=
      TouchCollected(TouchCollected(session.work.graph, a, report.collectedAt), b, report.collectedAt));
    MetHarmless(k, session.work, a, b, report.collectedAt);
    if a != b {
      RelayTrafficHarmless(k, known, cfg, report, relay, a, b, s, at);
      HarmlessOn(k, session.work, known, RelayTraffic(known, cfg, report, relay, a, b, s, at));
    }
  }

  lemma MetHarmless(k: EdgeKey, w: Work, a: NodeId, b: NodeId, at: Time)
    ensures Harmless(k, w, w.(graph := TouchCollected(TouchCollected(w.graph, a, at), b, at)))
    ensures Harmless(k, w, w.(graph := TouchPeer(TouchPeer(w.graph, a, at), b, at)))
  {
    MetIds(w.graph, a, b, at);
    IdsHarmless(k, w, TouchCollected(TouchCollected(w.graph, a, at), b, at));
    IdsHarmless(k, w, TouchPeer(TouchPeer(w.graph, a, at), b, at));
  }

  lemma MetIds(g: Graph, a: NodeId, b: NodeId, at: Time)
    ensures var h := TouchCollected(TouchCollected(g, a, at), b, at); SameIds(g, h) && h.edges == g.edges
    ensures var h := TouchPeer(TouchPeer(g, a, at), b, at); SameIds(g, h) && h.edges == g.edges
  {
    CollectedIds(g, a, at);
    CollectedIds(TouchCollected(g, a, at), b, at);
    PeerIds(g, a, at);
    PeerIds(TouchPeer(g, a, at), b, at);
  }

  lemma RelayTrafficHarmless(
    k: EdgeKey, w: Work, cfg: Config, report: Report, relay: NodeId, a: NodeId, b: NodeId, s: SessionReport, at: Time)
    requires at > NEVER
    ensures Harmless(k, w, RelayTraffic(w, cfg, report, relay, a, b, s, at))
  {
    var key := EdgeOf(a, b);
    var met := w.(graph := TouchPeer(TouchPeer(w.graph, a, at), b, at));
    MetHarmless(k, w, a, b, at);
    var seen := TouchEdge(met, key);
    TouchHarmless(k, met, key, relay);
    var (aToB, bToA) := if a == key.source then (s.forward, s.backward) else (s.backward, s.forward);
    var sample := RelaySample(seen.graph, key, relay, s, aToB, bToA, report.collectedAt, at);
    var counted := RelayTraffic(w, cfg, report, relay, a, b, s, at);
    PutHarmless(k, seen, cfg, key, sample, a, b, at, counted.traffic);
    HarmlessOn(k, w, met, seen);
    HarmlessOn(k, w, seen, counted);
  }

  lemma RelayArriveHarmless(k: EdgeKey, w: Work, cfg: Config, report: Report, s: SessionReport, at: Time, o: Oracle)
    requires Fair(o)
    ensures Harmless(k, w, RelayArrive(w, cfg, report, s, at, o).0)
  {
    var (resolved, r) := ResolveIn(w, cfg, s.relay, at, o);
    ResolveHarmless(k, w, cfg, s.relay, at, o);
    ClaimedHarmless(k, resolved, r.node, report.collectedAt, report.reporter, at);
    HarmlessOn(k, w, resolved, RelayArrive(w, cfg, report, s, at, o).0);
  }

  lemma RelayHarmless(k: EdgeKey, w: Work, cfg: Config, report: Report, s: SessionReport, at: Time, o: Oracle)
    requires Fair(o) && at > NEVER
    ensures Harmless(k, w, RelayOne(w, cfg, report, s, at, o))
  {
    RelayArriveHarmless(k, w, cfg, report, s, at, o);
    var (claimed, relay) := RelayArrive(w, cfg, report, s, at, o);
    SessionHarmless(k, claimed, cfg, relay, s, at, o);
    var session := ResolveSession(claimed, cfg, relay, s, at, o);
    SettleHarmless(k, session, cfg, report, relay, s, at);
    HarmlessOn(k, w, claimed, session.work);
    HarmlessOn(k, w, session.work, RelaySettle(session, cfg, report, relay, s, at));
  }

  lemma {:induction false} RelaysHarmless(
    k: EdgeKey, w: Work, cfg: Config, report: Report, sessions: seq<SessionReport>, at: Time, o: Oracle)
    requires Fair(o) && at > NEVER
    ensures Harmless(k, w, RelayAll(w, cfg, report, sessions, at, o))
  {
    if |sessions| > 0 {
      var before := RelayAll(w, cfg, report, sessions[..|sessions| - 1], at, o);
      RelaysHarmless(k, w, cfg, report, sessions[..|sessions| - 1], at, o);
      RelayHarmless(k, before, cfg, report, sessions[|sessions| - 1], at, o);
      HarmlessOn(k, w, before, RelayAll(w, cfg, report, sessions, at, o));
    }
  }

  lemma ProcessHarmless(k: EdgeKey, w: Work, cfg: Config, report: Report, at: Time, o: Oracle)
    requires Fair(o) && at > NEVER
    ensures var h := Process(w, cfg, report, at, o); h.Some? ==> Harmless(k, w, h.value)
  {
    if report.kind == Withdrawal {
      WithdrawAllHarmless(k, w, cfg, report, report.observers, at);
    } else if report.kind == RelayUpdate {
      RelaysHarmless(k, w, cfg, report, report.sessions, at, o);
    } else {
      ObserveAllHarmless(k, w, cfg, report, report.observers, at, o);
    }
  }

  /** From one tracker to the next: what was seen, if anything, was observed. */
  ghost predicate Tracks(before: Tracker, after: Tracker, seen: Option<Evidence>) {
    after == if seen.Some? then Observe(before, seen.value) else before
  }

  /** The tracker of an edge after a report: what is known, and the log with what the report added. */
  ghost function TrackerAfter(before: Tracker, a: Applied, k: EdgeKey): Tracker {
    Tracker(KnownOf(a.graph, k), if k in a.transitions then before.log + [a.transitions[k]] else before.log)
  }

  lemma FinishTracks(w: Work, cfg: Config, report: Report, at: Time, k: EdgeKey, before: Tracker)
    requires AsKnown(w, k) && before.lastKnown == KnownOf(w.graph, k)
    ensures var a := Finish(w, cfg, report, at);
      a.Some? ==> Tracks(before, TrackerAfter(before, a.value, k), EvidenceFound(w, cfg, at, k))
  {
  }

  /** What is learnt of an edge is about its own ends. */
  lemma LearntIsOwn(edge: Edge, cfg: Config, at: Time, k: EdgeKey)
    requires KeyedAs(k, edge)
    ensures OwnEnds(EvidenceAt(edge, cfg, at), k)
  {
  }

  lemma FinishSane(w: Work, cfg: Config, report: Report, at: Time)
    ensures var a := Finish(w, cfg, report, at);
      a.Some? ==> SameIds(w.graph, a.value.graph) && (Sane(w.graph) ==> Sane(a.value.graph))
  {
    var a := Finish(w, cfg, report, at);
    if a.Some? && Sane(w.graph) {
      var edges := a.value.graph.edges;
      forall j | j in edges ensures KeyedAs(j, edges[j]) && TidyEdge(edges[j], j) {
        assert KeyedAs(j, w.graph.edges[j]) && TidyEdge(w.graph.edges[j], j);
        LearntIsOwn(w.graph.edges[j], cfg, at, j);
      }
    }
  }

  /** From `g` to the result the edge's log advanced by what was seen, unless its ends were merged. */
  ghost predicate Advances(g: Graph, a: Applied, k: EdgeKey, before: Tracker, seen: Option<Evidence>) {
    && Absorbs(g, a.graph)
    && (Sane(g) && Aside(g, a.graph, k) ==> Tracks(before, TrackerAfter(before, a, k), seen))
  }

  lemma CarryTracks(w: Work, cfg: Config, report: Report, at: Time, o: Oracle, k: EdgeKey, before: Tracker)
    requires Fair(o) && at > NEVER && AsKnown(w, k) && before.lastKnown == KnownOf(w.graph, k)
    ensures var a := Reports.Carry(w, cfg, report, at, o);
      a.Some? ==>
        Advances(w.graph, a.value, k, before, EvidenceFound(Process(w, cfg, report, at, o).value, cfg, at, k))
  {
    var done := Process(w, cfg, report, at, o);
    ProcessHarmless(k, w, cfg, report, at, o);
    if done.Some? {
      FinishSane(done.value, cfg, report, at);
      var a := Finish(done.value, cfg, report, at);
      if a.Some? && Sane(w.graph) {
        SameRedirectsFollow(done.value.graph, a.value.graph);
        AbsorbsOn(w.graph, done.value.graph, a.value.graph, k);
        if Aside(w.graph, a.value.graph, k) {
          FinishTracks(done.value, cfg, report, at, k, before);
        }
      }
    }
  }

  lemma EnrolledKnown(g: Graph, cfg: Config, reporter: ReporterId, at: Time)
    ensures SameKnown(g, Prune(g, cfg, at)) && SameKnown(g, Enrol(Prune(g, cfg, at), reporter))
  {
  }

  /** A report that merges neither end of an edge, whatever else it merges, advances its log by the evidence that
      it finds for the edge, if it touches it. */
  lemma ReportTracks(g: Graph, cfg: Config, report: Report, at: Time, o: Oracle, k: EdgeKey, before: Tracker)
    requires Fair(o) && at > NEVER && before.lastKnown == KnownOf(g, k)
    ensures var a := Apply(g, cfg, report, at, o);
      a.Some? ==> Advances(g, a.value, k, before, Evaluated(g, cfg, report, at, o, k))
  {
    EnrolledKnown(g, cfg, report.reporter, at);
    var enrolled := Enrol(Prune(g, cfg, at), report.reporter);
    var verdict := VerdictOn(enrolled, cfg, report, at);
    if verdict.Admit? {
      AdmittedTracks(g, enrolled, verdict.resync, cfg, report, at, o, k, before);
      AdmittedApplies(g, cfg, report, at, o, k, verdict.resync);
    } else {
      RefusedTracks(g, cfg, report, at, o, k, before);
    }
  }

  lemma AdmittedApplies(g: Graph, cfg: Config, report: Report, at: Time, o: Oracle, k: EdgeKey, resync: bool)
    requires VerdictOn(Enrol(Prune(g, cfg, at), report.reporter), cfg, report, at) == Admit(resync)
    ensures var w := Work0(Enrol(Prune(g, cfg, at), report.reporter), resync);
      var done := Process(w, cfg, report, at, o);
      && Apply(g, cfg, report, at, o) == Reports.Carry(w, cfg, report, at, o)
      && (done.Some? ==> Evaluated(g, cfg, report, at, o, k) == EvidenceFound(done.value, cfg, at, k))
  {
  }

  lemma AdmittedTracks(
    g: Graph, enrolled: Graph, resync: bool, cfg: Config, report: Report, at: Time, o: Oracle, k: EdgeKey,
    before: Tracker)
    requires Fair(o) && at > NEVER && before.lastKnown == KnownOf(g, k) && SameKnown(g, enrolled)
    ensures var a := Reports.Carry(Work0(enrolled, resync), cfg, report, at, o);
      a.Some? ==>
        Advances(g, a.value, k, before,
                 EvidenceFound(Process(Work0(enrolled, resync), cfg, report, at, o).value, cfg, at, k))
  {
    var w := Work0(enrolled, resync);
    assert Stays(g, enrolled, k);
    CarryTracks(w, cfg, report, at, o, k, before);
    var a := Reports.Carry(w, cfg, report, at, o);
    if a.Some? {
      EnrolledAdvances(g, enrolled, a.value, k, before,
        EvidenceFound(Process(w, cfg, report, at, o).value, cfg, at, k));
    }
  }

  lemma EnrolledAdvances(g: Graph, enrolled: Graph, a: Applied, k: EdgeKey, before: Tracker, seen: Option<Evidence>)
    requires SameKnown(g, enrolled) && Advances(enrolled, a, k, before, seen)
    ensures Advances(g, a, k, before, seen)
  {
  }

  /** A report that is not admitted logs nothing. */
  lemma RefusedTracks(g: Graph, cfg: Config, report: Report, at: Time, o: Oracle, k: EdgeKey, before: Tracker)
    requires before.lastKnown == KnownOf(g, k)
    requires !VerdictOn(Enrol(Prune(g, cfg, at), report.reporter), cfg, report, at).Admit?
    ensures var a := Apply(g, cfg, report, at, o); a.Some? && Advances(g, a.value, k, before, None)
  {
    EnrolledKnown(g, cfg, report.reporter, at);
    var a := RefusedReport(g, cfg, report, at, o);
    UnchangedAdvances(g, a, k, before);
  }

  lemma RefusedReport(g: Graph, cfg: Config, report: Report, at: Time, o: Oracle) returns (a: Applied)
    requires !VerdictOn(Enrol(Prune(g, cfg, at), report.reporter), cfg, report, at).Admit?
    ensures Apply(g, cfg, report, at, o) == Some(a) && a.transitions == map[]
    ensures a.graph == Prune(g, cfg, at) || a.graph == Enrol(Prune(g, cfg, at), report.reporter)
  {
    a := Apply(g, cfg, report, at, o).value;
  }

  lemma UnchangedAdvances(g: Graph, a: Applied, k: EdgeKey, before: Tracker)
    requires SameKnown(g, a.graph) && a.transitions == map[] && before.lastKnown == KnownOf(g, k)
    ensures Advances(g, a, k, before, None)
  {
    assert Stays(g, a.graph, k);
    if Sane(g) {
      SameRedirectsFollow(g, a.graph);
    }
  }

  // ---------------------------------------------------------------------------------------------
  // Which reports have a result
  // ---------------------------------------------------------------------------------------------

  /** An edge that the report touched is there when it comes to log it. */
  ghost predicate Findable(w: Work, k: EdgeKey) {
    k in w.touched ==> k in w.graph.edges
  }

  /** A step touches edges that are there when it ends. */
  ghost predicate TouchesOwn(w: Work, h: Work) {
    forall k | k in h.touched :: k in w.touched || k in h.graph.edges
  }

  ghost predicate KeepsFindable(k: EdgeKey, w: Work, h: Work) {
    Absorbs(w.graph, h.graph) && (Sane(w.graph) && Aside(w.graph, h.graph, k) && Findable(w, k) ==> Findable(h, k))
  }

  lemma FindableAfter(k: EdgeKey, w: Work, h: Work)
    requires Harmless(k, w, h) && TouchesOwn(w, h)
    ensures KeepsFindable(k, w, h)
  {
  }

  lemma FindableOn(k: EdgeKey, u: Work, v: Work, w: Work)
    requires KeepsFindable(k, u, v) && KeepsFindable(k, v, w)
    ensures KeepsFindable(k, u, w)
  {
    AbsorbsOn(u.graph, v.graph, w.graph, k);
  }

  lemma ResolvedTouches(w: Work, cfg: Config, identity: NodeIdentity, at: Time, o: Oracle)
    ensures ResolveIn(w, cfg, identity, at, o).0.touched == w.touched
  {
  }

  lemma PairedTouches(
    w: Work, cfg: Config, node: NodeId, peerNode: NodeId, path: Path, collectedAt: Time, at: Time, o: Oracle)
    ensures PairThroughRelay(w, cfg, node, peerNode, path, collectedAt, at, o).touched == w.touched
  {
  }

  lemma PutThere(g: Graph, cfg: Config, key: EdgeKey, observation: Observation, a: NodeId, b: NodeId, at: Time)
    ensures key in MarkSystem(PutObservation(g, key, observation, at), cfg, key, a, b).edges
  {
  }

  lemma SampleTouches(
    w: Work, cfg: Config, node: NodeId, peer: PeerObservation, collectedAt: Time, at: Time, o: Oracle)
    ensures TouchesOwn(w, SamplePeer(w, cfg, node, peer, collectedAt, at, o))
  {
    if !(peer.rx == 0 && peer.tx == 0) {
      var (resolved, r) := ResolveIn(w, cfg, peer.peer, at, o);
      ResolvedTouches(w, cfg, peer.peer, at, o);
      var seen := resolved.(graph := TouchPeer(TouchCollected(resolved.graph, r.node, collectedAt), r.node, at));
      var key := EdgeOf(node, r.node);
      var touched := TouchEdge(seen, key);
      PairedTouches(touched, cfg, node, r.node, peer.path, collectedAt, at, o);
      var paired := PairThroughRelay(touched, cfg, node, r.node, peer.path, collectedAt, at, o);
      PutThere(paired.graph, cfg, key, PeerSample(node, peer, collectedAt, at), node, r.node, at);
    }
  }

  lemma {:induction false} SamplesFindable(
    k: EdgeKey, w: Work, cfg: Config, node: NodeId, peers: seq<PeerObservation>, collectedAt: Time, at: Time, o: Oracle)
    requires Fair(o) && at > NEVER
    ensures KeepsFindable(k, w, SamplePeers(w, cfg, node, peers, collectedAt, at, o))
  {
    if |peers| == 0 {
      SameEdgesSpare(w.graph, w.graph, k);
    } else {
      var before := SamplePeers(w, cfg, node, peers[..|peers| - 1], collectedAt, at, o);
      SamplesFindable(k, w, cfg, node, peers[..|peers| - 1], collectedAt, at, o);
      SampleHarmless(k, before, cfg, node, peers[|peers| - 1], collectedAt, at, o);
      SampleTouches(before, cfg, node, peers[|peers| - 1], collectedAt, at, o);
      FindableAfter(k, before, SamplePeer(before, cfg, node, peers[|peers| - 1], collectedAt, at, o));
      FindableOn(k, w, before, SamplePeers(w, cfg, node, peers, collectedAt, at, o));
    }
  }

  lemma {:induction false} ListingTouches(
    w: Work, cfg: Config, node: NodeId, peers: seq<PeerObservation>, collectedAt: Time, at: Time, o: Oracle)
    ensures ListPeers(w, cfg, node, peers, collectedAt, at, o).work.touched == w.touched
  {
    if |peers| > 0 {
      var before := ListPeers(w, cfg, node, peers[..|peers| - 1], collectedAt, at, o);
      ListingTouches(w, cfg, node, peers[..|peers| - 1], collectedAt, at, o);
      ResolvedTouches(before.work, cfg, peers[|peers| - 1].peer, at, o);
    }
  }

  lemma HeldThere(g: Graph, held: Held, node: NodeId, generation: Text, members: set<NodeId>)
    ensures ReplaceHeld(g, held, node, generation, members).edges.Keys == g.edges.Keys
  {
  }

  lemma ObserveFindable(k: EdgeKey, w: Work, cfg: Config, report: Report, ob: ObserverReport, at: Time, o: Oracle)
    requires Fair(o) && at > NEVER
    ensures var h := ObserveOne(w, cfg, report, ob, at, o); h.Some? ==> KeepsFindable(k, w, h.value)
  {
    var collectedAt := CollectionTime(ob, report.collectedAt);
    ObserveHarmless(k, w, cfg, report, ob, at, o);
    var (here, node) := Arrive(w, cfg, report, ob, at, o);
    ResolvedTouches(w, cfg, ob.observer, at, o);
    assert here.touched == w.touched;
    if node in here.graph.observers && (report.kind == Hello || report.kind == InventoryUpdate) {
      var listing := ListPeers(here, cfg, node, ob.peers, collectedAt, at, o);
      ListingTouches(here, cfg, node, ob.peers, collectedAt, at, o);
      HeldThere(listing.work.graph, listing.held, node, ob.generation, listing.members);
      var h := ObserveOne(w, cfg, report, ob, at, o).value;
      assert TouchesOwn(w, h);
      FindableAfter(k, w, h);
    } else if node in here.graph.observers {
      var noted := here.(resync := here.resync || here.graph.observers[node].generation != ob.generation);
      ArriveHarmless(k, w, cfg, report, ob, at, o);
      SameEdges(k, here, noted);
      FindableAfter(k, w, here);
      FindableAfter(k, here, noted);
      FindableOn(k, w, here, noted);
      SamplesFindable(k, noted, cfg, node, ob.peers, collectedAt, at, o);
      if report.kind == TrafficSample {
        FindableOn(k, w, noted, SamplePeers(noted, cfg, node, ob.peers, collectedAt, at, o));
      }
    }
  }

  lemma {:induction false} ObserveAllFindable(
    k: EdgeKey, w: Work, cfg: Config, report: Report, obs: seq<ObserverReport>, at: Time, o: Oracle)
    requires Fair(o) && at > NEVER
    ensures var h := ObserveReports(w, cfg, report, obs, at, o); h.Some? ==> KeepsFindable(k, w, h.value)
  {
    if |obs| == 0 {
      SameEdgesSpare(w.graph, w.graph, k);
    } else {
      var before := ObserveReports(w, cfg, report, obs[..|obs| - 1], at, o);
      ObserveAllFindable(k, w, cfg, report, obs[..|obs| - 1], at, o);
      if before.Some? {
        ObserveFindable(k, before.value, cfg, report, obs[|obs| - 1], at, o);
        var h := ObserveOne(before.value, cfg, report, obs[|obs| - 1], at, o);
        if h.Some? {
          FindableOn(k, w, before.value, h.value);
        }
      }
    }
  }

  lemma WithdrawTouches(w: Work, cfg: Config, report: Report, ob: ObserverReport, at: Time)
    ensures TouchesOwn(w, WithdrawOne(w, cfg, report, ob, at))
  {
  }

  lemma {:induction false} WithdrawAllFindable(
    k: EdgeKey, w: Work, cfg: Config, report: Report, obs: seq<ObserverReport>, at: Time)
    ensures KeepsFindable(k, w, WithdrawAll(w, cfg, report, obs, at))
  {
    if |obs| == 0 {
      SameEdgesSpare(w.graph, w.graph, k);
    } else {
      var before := WithdrawAll(w, cfg, report, obs[..|obs| - 1], at);
      WithdrawAllFindable(k, w, cfg, report, obs[..|obs| - 1], at);
      WithdrawHarmless(k, before, cfg, report, obs[|obs| - 1], at);
      WithdrawTouches(before, cfg, report, obs[|obs| - 1], at);
      FindableAfter(k, before, WithdrawOne(before, cfg, report, obs[|obs| - 1], at));
      FindableOn(k, w, before, WithdrawAll(w, cfg, report, obs, at));
    }
  }

  lemma ClientTouches(w: Work, cfg: Config, key: ScopeKey, id: Text, c: RelayClient, at: Time, o: Oracle)
    ensures PlaceClient(w, cfg, key, id, c, at, o).0.work.touched == w.touched
  {
    ResolvedClientTouches(w, cfg, ClientNode(w.graph, key, id, c.id), c, at, o);
  }

  lemma ResolvedClientTouches(w: Work, cfg: Config, existing: Option<NodeId>, c: RelayClient, at: Time, o: Oracle)
    ensures ResolveClient(w, cfg, existing, c, at, o).work.touched == w.touched
  {
  }

  lemma SessionTouches(w: Work, cfg: Config, relay: NodeId, s: SessionReport, at: Time, o: Oracle)
    ensures ResolveSession(w, cfg, relay, s, at, o).work.touched == w.touched
  {
    var key := ScopeKey(relay, s.vni);
    var entered := EnterSession(w, key, s.id, at);
    ClientTouches(entered, cfg, key, s.id, s.source, at, o);
    ClientTouches(PlaceClient(entered, cfg, key, s.id, s.source, at, o).0.work, cfg, key, s.id, s.target, at, o);
  }

  lemma SettleTouches(session: SessionResult, cfg: Config, report: Report, relay: NodeId, s: SessionReport, at: Time)
    ensures TouchesOwn(session.work, RelaySettle(session, cfg, report, relay, s, at))
  {
    var a, b := session.source, session.target;
    if a != b {
      var known := session.work.(graph :=
        TouchCollected(TouchCollected(session.work.graph, a, report.collectedAt), b, report.collectedAt));
      var key := EdgeOf(a, b);
      var seen := TouchEdge(known.(graph := TouchPeer(TouchPeer(known.graph, a, at), b, at)), key);
      var (aToB, bToA) := if a == key.source then (s.forward, s.backward) else (s.backward, s.forward);
      PutThere(seen.graph, cfg, key, RelaySample(seen.graph, key, relay, s, aToB, bToA, report.collectedAt, at),
               a, b, at);
    }
  }

  lemma RelayFindable(k: EdgeKey, w: Work, cfg: Config, report: Report, s: SessionReport, at: Time, o: Oracle)
    requires Fair(o) && at > NEVER
    ensures KeepsFindable(k, w, RelayOne(w, cfg, report, s, at, o))
  {
    RelayHarmless(k, w, cfg, report, s, at, o);
    var (claimed, relay) := RelayArrive(w, cfg, report, s, at, o);
    ResolvedTouches(w, cfg, s.relay, at, o);
    SessionTouches(claimed, cfg, relay, s, at, o);
    SettleTouches(ResolveSession(claimed, cfg, relay, s, at, o), cfg, report, relay, s, at);
    FindableAfter(k, w, RelayOne(w, cfg, report, s, at, o));
  }

  lemma {:induction false} RelaysFindable(
    k: EdgeKey, w: Work, cfg: Config, report: Report, sessions: seq<SessionReport>, at: Time, o: Oracle)
    requires Fair(o) && at > NEVER
    ensures KeepsFindable(k, w, RelayAll(w, cfg, report, sessions, at, o))
  {
    if |sessions| == 0 {
      SameEdgesSpare(w.graph, w.graph, k);
    } else {
      var before := RelayAll(w, cfg, report, sessions[..|sessions| - 1], at, o);
      RelaysFindable(k, w, cfg, report, sessions[..|sessions| - 1], at, o);
      RelayFindable(k, before, cfg, report, sessions[|sessions| - 1], at, o);
      FindableOn(k, w, before, RelayAll(w, cfg, report, sessions, at, o));
    }
  }

  lemma ProcessFindable(k: EdgeKey, w: Work, cfg: Config, report: Report, at: Time, o: Oracle)
    requires Fair(o) && at > NEVER
    ensures var h := Process(w, cfg, report, at, o); h.Some? ==> KeepsFindable(k, w, h.value)
  {
    if report.kind == Withdrawal {
      WithdrawAllFindable(k, w, cfg, report, report.observers, at);
    } else if report.kind == RelayUpdate {
      RelaysFindable(k, w, cfg, report, report.sessions, at, o);
    } else {
      ObserveAllFindable(k, w, cfg, report, report.observers, at, o);
    }
  }

  /** A report has a result unless it settles on an observer without a record or merges an end of an edge that it
      touched. */
  lemma ResultUnlessMerged(g: Graph, cfg: Config, report: Report, at: Time, o: Oracle)
    requires Fair(o) && at > NEVER && Sane(g)
    ensures var enrolled := Enrol(Prune(g, cfg, at), report.reporter);
      match VerdictOn(enrolled, cfg, report, at)
      case Admit(resync) =>
        var done := Process(Work0(enrolled, resync), cfg, report, at, o);
        (Apply(g, cfg, report, at, o).Some? ==> done.Some?) &&
        (done.Some? && (forall k | k in done.value.touched :: Aside(enrolled, done.value.graph, k)) ==>
           Apply(g, cfg, report, at, o).Some?)
      case _ => Apply(g, cfg, report, at, o).Some?
  {
    EnrolledKnown(g, cfg, report.reporter, at);
    var enrolled := Enrol(Prune(g, cfg, at), report.reporter);
    var verdict := VerdictOn(enrolled, cfg, report, at);
    if verdict.Admit? {
      var w := Work0(enrolled, verdict.resync);
      var done := Process(w, cfg, report, at, o);
      if done.Some? && forall k | k in done.value.touched :: Aside(enrolled, done.value.graph, k) {
        forall k | k in done.value.touched ensures k in done.value.graph.edges {
          ProcessFindable(k, w, cfg, report, at, o);
        }
      }
    }
  }

  // ---------------------------------------------------------------------------------------------
  // Directory snapshots
  // ---------------------------------------------------------------------------------------------

  lemma DeviceSpares(g: Graph, cfg: Config, d: Device, keyShared: bool, at: Time, o: Oracle, k: EdgeKey)
    requires Fair(o)
    ensures Spares(g, ResolveDevice(g, cfg, d, keyShared, at, o).graph, k)
  {
    var h := ResolveDevice(g, cfg, d, keyShared, at, o).graph;
    var usable := d.nodeKey != EMPTY && !keyShared && NodeKeyAlias(d.nodeKey) in g.aliases;
    var conflicting := if usable then ConflictingNode(g, d.stable, NodeKeyAlias(d.nodeKey)) else None;
    if usable && conflicting.None? && g.aliases[NodeKeyAlias(d.nodeKey)] in g.nodes {
      var byKey := g.aliases[NodeKeyAlias(d.nodeKey)];
      if StableAlias(d.stable) !in g.aliases {
        AdoptIds(g, byKey, d.stable);
        SameEdgesSpare(g, h, k);
      } else if byKey != g.aliases[StableAlias(d.stable)] {
        MergeSpares(g, g.aliases[StableAlias(d.stable)], byKey, o, k);
      } else {
        SameEdgesSpare(g, g, k);
      }
    } else if StableAlias(d.stable) in g.aliases {
      SameEdgesSpare(g, g, k);
    } else {
      var r := Resolve(g, cfg, OnlyStable(d.stable), at, o);
      ResolveSpares(g, cfg, OnlyStable(d.stable), at, o, k);
      UnseenIds(r.graph, r.node);
      SameEdgesSpare(r.graph, r.graph, k);
      SameEdgesSpare(r.graph, Unseen(r.graph, r.node), k);
      SparesOn(g, r.graph, Unseen(r.graph, r.node), k);
    }
  }

  lemma AdoptIds(g: Graph, node: NodeId, stable: Text)
    requires node in g.nodes
    ensures var h := Adopt(g, node, stable); SameIds(g, h) && h.edges == g.edges
  {
  }

  lemma UnseenIds(g: Graph, node: NodeId)
    ensures var h := Unseen(g, node); SameIds(g, h) && h.edges == g.edges
  {
  }

  lemma {:induction false} DevicesSpare(
    g: Graph, cfg: Config, all: seq<Device>, devices: seq<Device>, at: Time, o: Oracle, k: EdgeKey)
    requires Fair(o)
    ensures Spares(g, SyncDevices(g, cfg, all, devices, at, o).graph, k)
  {
    if |devices| == 0 {
      SameEdgesSpare(g, g, k);
    } else {
      var before, last := SyncDevices(g, cfg, all, devices[..|devices| - 1], at, o).graph, devices[|devices| - 1];
      DevicesSpare(g, cfg, all, devices[..|devices| - 1], at, o, k);
      DeviceSpares(before, cfg, last, KeyShared(all, last.nodeKey), at, o, k);
      SparesOn(g, before, SyncDevices(g, cfg, all, devices, at, o).graph, k);
    }
  }

  /** A directory snapshot leaves what is known of every edge alone whose ends it does not merge. */
  lemma DirectorySpares(g: Graph, cfg: Config, devices: seq<Device>, at: Time, o: Oracle, k: EdgeKey)
    requires Fair(o)
    ensures Spares(g, ApplyDirectory(g, cfg, devices, at, o), k)
  {
    var synced := SyncDevices(g, cfg, devices, devices, at, o).graph;
    DevicesSpare(g, cfg, devices, devices, at, o, k);
    SameEdgesSpare(synced, ApplyDirectory(g, cfg, devices, at, o), k);
    SparesOn(g, synced, ApplyDirectory(g, cfg, devices, at, o), k);
  }

  // ---------------------------------------------------------------------------------------------
  // Runs
  // ---------------------------------------------------------------------------------------------

  /** A report or a directory snapshot as it was received. */
  datatype Received =
    | Reported(report: Report, at: Time, oracle: Oracle)
    | Synced(devices: seq<Device>, at: Time, oracle: Oracle)

  ghost predicate FairRun(received: seq<Received>) {
    forall r | r in received :: Fair(r.oracle) && r.at > NEVER
  }

  ghost function After(g: Graph, cfg: Config, r: Received): Option<Graph> {
    match r
    case Reported(report, at, o) =>
      var a := Apply(g, cfg, report, at, o);
      if a.Some? then Some(a.value.graph) else None
    case Synced(devices, at, o) => Some(ApplyDirectory(g, cfg, devices, at, o))
  }

  /** The state that a run ends in, if none of its reports failed. */
  ghost function AfterAll(g: Graph, cfg: Config, received: seq<Received>): Option<Graph> {
    if |received| == 0 then Some(g)
    else
      var mid :- AfterAll(g, cfg, received[..|received| - 1]);
      After(mid, cfg, received[|received| - 1])
  }

  /** What one step logs for an edge. */
  ghost function Logged(g: Graph, cfg: Config, r: Received, k: EdgeKey): seq<Evidence> {
    match r
    case Reported(report, at, o) =>
      var a := Apply(g, cfg, report, at, o);
      if a.Some? && k in a.value.transitions then [a.value.transitions[k]] else []
    case Synced(_, _, _) => []
  }

  /** The evidence of the edge that one step comes across. */
  ghost function Seen(g: Graph, cfg: Config, r: Received, k: EdgeKey): Option<Evidence> {
    match r
    case Reported(report, at, o) => Evaluated(g, cfg, report, at, o, k)
    case Synced(_, _, _) => None
  }

  ghost function LogOf(g: Graph, cfg: Config, received: seq<Received>, k: EdgeKey): seq<Evidence> {
    if |received| == 0 then []
    else
      var before, last := received[..|received| - 1], received[|received| - 1];
      var mid := AfterAll(g, cfg, before);
      LogOf(g, cfg, before, k) + if mid.Some? then Logged(mid.value, cfg, last, k) else []
  }

  /** The evidence of an edge at each report of the run that touched it, in order. */
  ghost function HistoryOf(g: Graph, cfg: Config, received: seq<Received>, k: EdgeKey): seq<Evidence> {
    if |received| == 0 then []
    else
      var before, last := received[..|received| - 1], received[|received| - 1];
      var mid := AfterAll(g, cfg, before);
      var seen := if mid.Some? then Seen(mid.value, cfg, last, k) else None;
      HistoryOf(g, cfg, before, k) + if seen.Some? then [seen.value] else []
  }

  lemma StepAdvances(g: Graph, cfg: Config, r: Received, k: EdgeKey, log: seq<Evidence>)
    requires Fair(r.oracle) && r.at > NEVER && After(g, cfg, r).Some?
    ensures var h := After(g, cfg, r).value;
      && Absorbs(g, h)
      && (Sane(g) && Aside(g, h, k) ==>
            Tracks(Tracker(KnownOf(g, k), log), Tracker(KnownOf(h, k), log + Logged(g, cfg, r, k)), Seen(g, cfg, r, k)))
  {
    match r
    case Reported(report, at, o) =>
      ReportTracks(g, cfg, report, at, o, k, Tracker(KnownOf(g, k), log));
      assert log + [] == log;
    case Synced(devices, at, o) =>
      DirectorySpares(g, cfg, devices, at, o, k);
      assert log + [] == log;
  }

  lemma {:induction false} RunAbsorbs(g: Graph, cfg: Config, received: seq<Received>, k: EdgeKey)
    requires FairRun(received) && AfterAll(g, cfg, received).Some?
    ensures Absorbs(g, AfterAll(g, cfg, received).value)
  {
    if |received| == 0 {
      SameEdgesSpare(g, g, k);
    } else {
      var before, last := received[..|received| - 1], received[|received| - 1];
      var mid := AfterAll(g, cfg, before).value;
      assert last in received;
      RunAbsorbs(g, cfg, before, k);
      StepAdvances(mid, cfg, last, k, []);
      AbsorbsOn(g, mid, AfterAll(g, cfg, received).value, k);
    }
  }

  lemma ObserveOneMore(history: seq<Evidence>, before: Tracker, after: Tracker, seen: Option<Evidence>)
    requires ObserveAll(history) == before && Tracks(before, after, seen)
    ensures ObserveAll(history + if seen.Some? then [seen.value] else []) == after
  {
    if seen.Some? {
      assert (history + [seen.value])[..|history|] == history;
    } else {
      assert history + [] == history;
    }
  }

  lemma {:induction false} RunTracks(g: Graph, cfg: Config, received: seq<Received>, k: EdgeKey)
    requires FairRun(received) && AfterAll(g, cfg, received).Some?
    requires Sane(g) && KnownOf(g, k).None? && Aside(g, AfterAll(g, cfg, received).value, k)
    ensures ObserveAll(HistoryOf(g, cfg, received, k)) ==
      Tracker(KnownOf(AfterAll(g, cfg, received).value, k), LogOf(g, cfg, received, k))
  {
    if |received| > 0 {
      var before, last := received[..|received| - 1], received[|received| - 1];
      var mid, h := AfterAll(g, cfg, before).value, AfterAll(g, cfg, received).value;
      assert last in received;
      RunAbsorbs(g, cfg, before, k);
      var log := LogOf(g, cfg, before, k);
      StepAdvances(mid, cfg, last, k, log);
      AbsorbsOn(g, mid, h, k);
      RunTracks(g, cfg, before, k);
      ObserveOneMore(HistoryOf(g, cfg, before, k), Tracker(KnownOf(mid, k), log),
                     Tracker(KnownOf(h, k), log + Logged(mid, cfg, last, k)), Seen(mid, cfg, last, k));
    }
  }

  /** A log without repetitions: it is the history with repetitions collapsed, no two neighbours are the same, and the
      last is what was seen last. */
  ghost predicate Follows(log: seq<Evidence>, history: seq<Evidence>) {
    && log == Collapse(history)
    && (forall i | 0 <= i < |log| - 1 :: !SameEvidence(log[i], log[i + 1]))
    && (|history| > 0 ==> |log| > 0 && SameEvidence(log[|log| - 1], history[|history| - 1]))
  }

  /** Over every run of reports and directory snapshots, whatever nodes they merge, an edge whose two ends neither
      absorb a node nor are absorbed logs the evidence that the run's reports found for it, in order and with
      repetitions collapsed: no two neighbours are the same, and the last is what is known. */
  lemma LogNeverStutters(g: Graph, cfg: Config, received: seq<Received>, k: EdgeKey)
    requires FairRun(received) && AfterAll(g, cfg, received).Some?
    requires Sane(g) && KnownOf(g, k).None? && Aside(g, AfterAll(g, cfg, received).value, k)
    ensures var log, history := LogOf(g, cfg, received, k), HistoryOf(g, cfg, received, k);
      var known := KnownOf(AfterAll(g, cfg, received).value, k);
      Follows(log, history) && known == (if |history| > 0 then Some(history[|history| - 1]) else None)
  {
    RunTracks(g, cfg, received, k);
    HistoryNeverStutters(HistoryOf(g, cfg, received, k), KnownOf(AfterAll(g, cfg, received).value, k),
                         LogOf(g, cfg, received, k));
  }

  /** What that rests on holds from the start and is kept by every step. */
  lemma RunsAreSane(cfg: Config, received: seq<Received>, k: EdgeKey)
    requires FairRun(received) && AfterAll(EMPTY_GRAPH, cfg, received).Some?
    ensures Sane(AfterAll(EMPTY_GRAPH, cfg, received).value)
  {
    assert Sane(EMPTY_GRAPH);
    RunAbsorbs(EMPTY_GRAPH, cfg, received, k);
  }

  /** An edge from a node to itself is another matter: any merge drops it, and with it what was known. */
  lemma LoopsAreDropped(g: Graph, keep: NodeId, remove: NodeId, o: Oracle, k: EdgeKey)
    requires Fair(o) && WellKeyed(g.edges) && keep in g.nodes && remove in g.nodes && keep != remove
    requires k.source == k.target
    ensures k !in Merge(g, keep, remove, o).edges
  {
    MergedEdges(g, keep, remove, o);
    RebuildInOrder(g, keep, remove, o);
    LoopsHaveNoPreimage(g.edges.Keys, k, keep, remove);
  }

  lemma LoopsHaveNoPreimage(keys: set<EdgeKey>, k: EdgeKey, keep: NodeId, remove: NodeId)
    requires k.source == k.target
    ensures Preimages(keys, k, keep, remove) == {}
  {
  }

  lemma HistoryNeverStutters(history: seq<Evidence>, known: Option<Evidence>, log: seq<Evidence>)
    requires ObserveAll(history) == Tracker(known, log)
    ensures Follows(log, history) && known == if |history| > 0 then Some(history[|history| - 1]) else None
  {
    LogIsCollapsedHistory(history);
    if |history| > 0 {
      LogWithoutStutter(history);
    }
  }
}
