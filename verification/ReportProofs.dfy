/** What applying a report keeps, and when its outcome is decided by the report alone. */
module ReportProofs {
  import opened Names
  import opened Evidence
  import opened Admission
  import opened Canonical
  import opened Invariants
  import opened Pairing
  import opened Reports

  // ---------------------------------------------------------------------------------------------
  // Every report keeps the graph invariant
  // ---------------------------------------------------------------------------------------------

  /** The invariant, and the reporter at work is enrolled. */
  ghost predicate SoundFor(w: Work, reporter: ReporterId) {
    Sound(w.graph) && reporter in w.graph.reporters
  }

  lemma ResolveInSound(w: Work, cfg: Config, identity: NodeIdentity, at: Time, o: Oracle, reporter: ReporterId)
    requires SoundFor(w, reporter) && Fair(o)
    ensures var (h, r) := ResolveIn(w, cfg, identity, at, o);
      SoundFor(h, reporter) && r.node in h.graph.nodes && h.graph == r.graph
  {
    ResolveKeepsSound(w.graph, cfg, identity, at, o);
  }

  lemma RetouchSound(g: Graph, h: Graph, node: NodeId, n: Node)
    requires Sound(g) && node in g.nodes && n.identity == g.nodes[node].identity
    requires h == g.(nodes := g.nodes[node := n])
    ensures Sound(h) && SameSkeleton(g, h)
  {
    assert h.nodes.Keys == g.nodes.Keys;
    SkeletonKeepsSound(g, h);
  }

  lemma TouchCollectedSound(g: Graph, node: NodeId, collectedAt: Time)
    requires Sound(g)
    ensures var h := TouchCollected(g, node, collectedAt); Sound(h) && SameSkeleton(g, h)
  {
    var h := TouchCollected(g, node, collectedAt);
    if h != g {
      RetouchSound(g, h, node, h.nodes[node]);
    }
  }

  lemma TouchObserverSound(g: Graph, node: NodeId, collectedAt: Time, at: Time)
    requires Sound(g)
    ensures var h := TouchObserver(g, node, collectedAt, at); Sound(h) && SameSkeleton(g, h)
  {
    var h := TouchObserver(g, node, collectedAt, at);
    if h != g {
      RetouchSound(g, h, node, h.nodes[node]);
    }
  }

  lemma TouchPeerSound(g: Graph, node: NodeId, at: Time)
    requires Sound(g)
    ensures var h := TouchPeer(g, node, at); Sound(h) && SameSkeleton(g, h)
  {
    var h := TouchPeer(g, node, at);
    if h != g {
      RetouchSound(g, h, node, h.nodes[node]);
    }
  }

  lemma {:induction false} MergeInferredSound(g: Graph, pairs: seq<(NodeId, NodeId)>, o: Oracle)
    requires Sound(g)
    ensures var h := MergeInferred(g, pairs, o); Sound(h) && h.reporters.Keys == g.reporters.Keys
  {
    if |pairs| > 0 {
      MergeInferredSound(g, pairs[..|pairs| - 1], o);
      var last := pairs[|pairs| - 1];
      MergeKeepsSound(MergeInferred(g, pairs[..|pairs| - 1], o), last.0, last.1, o);
    }
  }

  lemma InferenceSound(g: Graph, h: Graph, pairs: seq<(NodeId, NodeId)>, o: Oracle)
    requires Sound(g) && InferredFrom(g, h, pairs, o)
    ensures Sound(h) && h.reporters.Keys == g.reporters.Keys
  {
    MergeInferredSound(g, pairs, o);
    ScopesSound(MergeInferred(g, pairs, o), h.scopes);
  }

  lemma RecordPairSound(
    g: Graph, cfg: Config, relay: NodeId, vni: int, left: NodeId, right: NodeId, at: Time, o: Oracle)
    requires Sound(g)
    ensures var h := RecordPair(g, cfg, relay, vni, left, right, at, o).graph;
      Sound(h) && h.reporters.Keys == g.reporters.Keys
  {
    var pairs := RecordedIsInferred(g, cfg, relay, vni, left, right, at, o);
    InferenceSound(g, RecordPair(g, cfg, relay, vni, left, right, at, o).graph, pairs, o);
  }

  /** The invariant reads no relay scope, */
  lemma ScopesSound(g: Graph, scopes: map<ScopeKey, RelayScope>)
    requires Sound(g)
    ensures Sound(g.(scopes := scopes))
  {
    SkeletonKeepsSound(g, g.(scopes := scopes));
  }

  /** and of the edges only that they are well keyed. */
  lemma EdgesSound(g: Graph, edges: map<EdgeKey, Edge>)
    requires Sound(g) && WellKeyed(edges)
    ensures Sound(g.(edges := edges))
  {
    SkeletonKeepsSound(g, g.(edges := edges));
  }

  lemma PutSound(g: Graph, cfg: Config, key: EdgeKey, observation: Observation, a: NodeId, b: NodeId, at: Time)
    requires Sound(g) && key.source <= key.target
    ensures var h := MarkSystem(PutObservation(g, key, observation, at), cfg, key, a, b);
      Sound(h) && h.reporters.Keys == g.reporters.Keys
  {
    var put := PutObservation(g, key, observation, at);
    EdgesSound(g, put.edges);
    EdgesSound(put, MarkSystem(put, cfg, key, a, b).edges);
  }

  lemma WithdrawOneSound(w: Work, cfg: Config, report: Report, ob: ObserverReport, at: Time)
    requires SoundFor(w, report.reporter)
    ensures SoundFor(WithdrawOne(w, cfg, report, ob, at), report.reporter)
  {
    var found := Lookup(w.graph, cfg, ob.observer, at);
    if found.Some? {
      var node := found.value;
      TouchObserverSound(w.graph, node, CollectionTime(ob, report.collectedAt), at);
      WithdrawKeepsSound(TouchObserver(w.graph, node, CollectionTime(ob, report.collectedAt), at), report.reporter,
        node, at);
    }
  }

  lemma {:induction false} WithdrawAllSound(w: Work, cfg: Config, report: Report, obs: seq<ObserverReport>, at: Time)
    requires SoundFor(w, report.reporter)
    ensures SoundFor(WithdrawAll(w, cfg, report, obs, at), report.reporter)
  {
    if obs != [] {
      WithdrawAllSound(w, cfg, report, obs[..|obs| - 1], at);
      WithdrawOneSound(WithdrawAll(w, cfg, report, obs[..|obs| - 1], at), cfg, report, obs[|obs| - 1], at);
    }
  }

  lemma ListPeerSound(
    l: Listing, cfg: Config, peer: PeerObservation, collectedAt: Time, at: Time, o: Oracle, reporter: ReporterId)
    requires SoundFor(l.work, reporter) && Fair(o)
    ensures SoundFor(ListPeer(l, cfg, peer, collectedAt, at, o).work, reporter)
  {
    ResolveInSound(l.work, cfg, peer.peer, at, o, reporter);
    var (h, r) := ResolveIn(l.work, cfg, peer.peer, at, o);
    TouchCollectedSound(h.graph, r.node, collectedAt);
    TouchPeerSound(TouchCollected(h.graph, r.node, collectedAt), r.node, at);
  }

  lemma {:induction false} ListPeersSound(
    w: Work, cfg: Config, node: NodeId, peers: seq<PeerObservation>, collectedAt: Time, at: Time, o: Oracle,
    reporter: ReporterId)
    requires SoundFor(w, reporter) && Fair(o)
    ensures SoundFor(ListPeers(w, cfg, node, peers, collectedAt, at, o).work, reporter)
  {
    if |peers| > 0 {
      ListPeersSound(w, cfg, node, peers[..|peers| - 1], collectedAt, at, o, reporter);
      ListPeerSound(ListPeers(w, cfg, node, peers[..|peers| - 1], collectedAt, at, o), cfg, peers[|peers| - 1],
                    collectedAt, at, o, reporter);
    }
  }

  lemma PairThroughRelaySound(
    w: Work, cfg: Config, node: NodeId, peerNode: NodeId, path: Path, collectedAt: Time, at: Time, o: Oracle,
    reporter: ReporterId)
    requires SoundFor(w, reporter) && Fair(o)
    ensures SoundFor(PairThroughRelay(w, cfg, node, peerNode, path, collectedAt, at, o), reporter)
  {
    if path.kind == PeerRelay && path.vni.Some? && path.stable != EMPTY {
      var identity := NO_IDENTITY.(stable := path.stable);
      ResolveInSound(w, cfg, identity, at, o, reporter);
      var (h, r) := ResolveIn(w, cfg, identity, at, o);
      TouchCollectedSound(h.graph, r.node, collectedAt);
      RecordPairSound(TouchCollected(h.graph, r.node, collectedAt), cfg, r.node, path.vni.value, node, peerNode, at, o);
    }
  }

  lemma SamplePeerSound(
    w: Work, cfg: Config, node: NodeId, peer: PeerObservation, collectedAt: Time, at: Time, o: Oracle,
    reporter: ReporterId)
    requires SoundFor(w, reporter) && Fair(o)
    ensures SoundFor(SamplePeer(w, cfg, node, peer, collectedAt, at, o), reporter)
  {
    if !(peer.rx == 0 && peer.tx == 0) {
      ResolveInSound(w, cfg, peer.peer, at, o, reporter);
      var (h, r) := ResolveIn(w, cfg, peer.peer, at, o);
      TouchCollectedSound(h.graph, r.node, collectedAt);
      TouchPeerSound(TouchCollected(h.graph, r.node, collectedAt), r.node, at);
      var seen := h.(graph := TouchPeer(TouchCollected(h.graph, r.node, collectedAt), r.node, at));
      var key := EdgeOf(node, r.node);
      PairThroughRelaySound(TouchEdge(seen, key), cfg, node, r.node, peer.path, collectedAt, at, o, reporter);
      var paired := PairThroughRelay(TouchEdge(seen, key), cfg, node, r.node, peer.path, collectedAt, at, o);
      PutSound(paired.graph, cfg, key, PeerSample(node, peer, collectedAt, at), node, r.node, at);
    }
  }

  lemma {:induction false} SamplePeersSound(
    w: Work, cfg: Config, node: NodeId, peers: seq<PeerObservation>, collectedAt: Time, at: Time, o: Oracle,
    reporter: ReporterId)
    requires SoundFor(w, reporter) && Fair(o)
    ensures SoundFor(SamplePeers(w, cfg, node, peers, collectedAt, at, o), reporter)
  {
    if peers != [] {
      SamplePeersSound(w, cfg, node, peers[..|peers| - 1], collectedAt, at, o, reporter);
      SamplePeerSound(SamplePeers(w, cfg, node, peers[..|peers| - 1], collectedAt, at, o), cfg, node,
                      peers[|peers| - 1], collectedAt, at, o, reporter);
    }
  }

  lemma WithoutPeersKeyed(edges: map<EdgeKey, Edge>, node: NodeId, peers: set<NodeId>)
    requires WellKeyed(edges)
    ensures WellKeyed(WithoutPeers(edges, node, peers))
  {
  }

  lemma ReplaceHeldSound(g: Graph, held: Held, node: NodeId, generation: Text, members: set<NodeId>)
    requires Sound(g)
    ensures var h := ReplaceHeld(g, held, node, generation, members);
      Sound(h) && h.reporters == g.reporters
  {
    match held
    case Discarded(membership) =>
      WithoutPeersKeyed(g.edges, node, membership - members);
      EdgesSound(g, WithoutPeers(g.edges, node, membership - members));
    case At(home) =>
      if home in g.observers {
        WithoutPeersKeyed(g.edges, node, g.observers[home].membership - members);
        EdgesSound(g, WithoutPeers(g.edges, node, g.observers[home].membership - members));
        var cleared := g.(edges := WithoutPeers(g.edges, node, g.observers[home].membership - members));
        SkeletonKeepsSound(cleared, ReplaceHeld(g, held, node, generation, members));
      }
  }

  /** Resolving, claiming and touching the observer itself. */
  lemma ArriveSound(w: Work, cfg: Config, report: Report, ob: ObserverReport, at: Time, o: Oracle)
    requires SoundFor(w, report.reporter) && Fair(o)
    ensures SoundFor(Arrive(w, cfg, report, ob, at, o).0, report.reporter)
  {
    var collectedAt := CollectionTime(ob, report.collectedAt);
    ResolveInSound(w, cfg, ob.observer, at, o, report.reporter);
    var (h, r) := ResolveIn(w, cfg, ob.observer, at, o);
    TouchCollectedSound(h.graph, r.node, collectedAt);
    var collected := TouchCollected(h.graph, r.node, collectedAt);
    ClaimKeepsSound(collected, report.reporter, r.node);
    var claimed := if report.kind == Hello then Claim(collected, report.reporter, r.node) else collected;
    TouchObserverSound(claimed, r.node, collectedAt, at);
  }

  lemma ObserveOneSound(w: Work, cfg: Config, report: Report, ob: ObserverReport, at: Time, o: Oracle)
    requires SoundFor(w, report.reporter) && Fair(o)
    ensures ObserveOne(w, cfg, report, ob, at, o).Some? ==>
      SoundFor(ObserveOne(w, cfg, report, ob, at, o).value, report.reporter)
  {
    var collectedAt := CollectionTime(ob, report.collectedAt);
    ArriveSound(w, cfg, report, ob, at, o);
    var (here, node) := Arrive(w, cfg, report, ob, at, o);
    if report.kind == Hello || report.kind == InventoryUpdate {
      ListPeersSound(here, cfg, node, ob.peers, collectedAt, at, o, report.reporter);
      var listing := ListPeers(here, cfg, node, ob.peers, collectedAt, at, o);
      ReplaceHeldSound(listing.work.graph, listing.held, node, ob.generation, listing.members);
    } else if node in here.graph.observers {
      var stale := here.graph.observers[node].generation != ob.generation;
      SamplePeersSound(here.(resync := here.resync || stale), cfg, node, ob.peers, collectedAt, at, o, report.reporter);
    }
  }

  lemma {:induction false} ObserveReportsSound(
    w: Work, cfg: Config, report: Report, obs: seq<ObserverReport>, at: Time, o: Oracle)
    requires SoundFor(w, report.reporter) && Fair(o)
    ensures ObserveReports(w, cfg, report, obs, at, o).Some? ==>
      SoundFor(ObserveReports(w, cfg, report, obs, at, o).value, report.reporter)
  {
    if obs != [] {
      ObserveReportsSound(w, cfg, report, obs[..|obs| - 1], at, o);
      var before := ObserveReports(w, cfg, report, obs[..|obs| - 1], at, o);
      if before.Some? {
        ObserveOneSound(before.value, cfg, report, obs[|obs| - 1], at, o);
      }
    }
  }

  lemma ResolveClientSound(
    w: Work, cfg: Config, existing: Option<NodeId>, c: RelayClient, at: Time, o: Oracle, reporter: ReporterId)
    requires SoundFor(w, reporter) && Fair(o)
    ensures SoundFor(ResolveClient(w, cfg, existing, c, at, o).work, reporter)
  {
    if c.identity.Some? && StatusOf(c.identity.value) == Resolved {
      ResolveInSound(w, cfg, c.identity.value, at, o, reporter);
      var (h, r) := ResolveIn(w, cfg, c.identity.value, at, o);
      if existing.Some? && existing.value != r.node {
        MergeKeepsSound(h.graph, r.node, existing.value, o);
        assert ResolveClient(w, cfg, existing, c, at, o).work.graph == Merge(h.graph, r.node, existing.value, o);
      }
    } else if existing.Some? {
      var g := w.graph;
      if existing.value in g.nodes {
        var node := g.nodes[existing.value].(status := ClientStatus(c));
        SkeletonKeepsSound(g, g.(nodes := g.nodes[existing.value := node]));
      }
    } else {
      GrowKeepsSound(w.graph, o.newId(w.graph), NewNode(NO_IDENTITY, ClientStatus(c), at));
    }
  }

  lemma PlaceClientSound(
    w: Work, cfg: Config, key: ScopeKey, id: Text, c: RelayClient, at: Time, o: Oracle, reporter: ReporterId)
    requires SoundFor(w, reporter) && Fair(o)
    ensures SoundFor(PlaceClient(w, cfg, key, id, c, at, o).0.work, reporter)
  {
    var r := ResolveClient(w, cfg, ClientNode(w.graph, key, id, c.id), c, at, o);
    ResolveClientSound(w, cfg, ClientNode(w.graph, key, id, c.id), c, at, o, reporter);
    ScopesSound(r.work.graph, o.inferredScopes(r.work.graph));
    ScopesSound(r.work.graph, PutClient(r.work.graph, key, id, c.id, r.node).scopes);
  }

  lemma PlaceSessionSound(
    w: Work, cfg: Config, relay: NodeId, s: SessionReport, at: Time, o: Oracle, reporter: ReporterId)
    requires SoundFor(w, reporter) && Fair(o)
    ensures SoundFor(PlaceSession(w, cfg, relay, s, at, o).work, reporter)
  {
    var key := ScopeKey(relay, s.vni);
    var entered := EnterSession(w, key, s.id, at);
    ScopesSound(w.graph, entered.graph.scopes);
    PlaceClientSound(entered, cfg, key, s.id, s.source, at, o, reporter);
    var (a, _) := PlaceClient(entered, cfg, key, s.id, s.source, at, o);
    PlaceClientSound(a.work, cfg, key, s.id, s.target, at, o, reporter);
    var (b, _) := PlaceClient(a.work, cfg, key, s.id, s.target, at, o);
    ScopesSound(b.work.graph, PutEnds(b.work.graph, key, s, a, b).scopes);
  }

  lemma ResolveSessionSound(
    w: Work, cfg: Config, relay: NodeId, s: SessionReport, at: Time, o: Oracle, reporter: ReporterId)
    requires SoundFor(w, reporter) && Fair(o)
    ensures SoundFor(ResolveSession(w, cfg, relay, s, at, o).work, reporter)
  {
    PlaceSessionSound(w, cfg, relay, s, at, o, reporter);
    var p := PlaceSession(w, cfg, relay, s, at, o);
    var pairs := SettledIsInferred(p.work.graph, cfg, ScopeKey(relay, s.vni), p, at, o);
    InferenceSound(p.work.graph, SettlePair(p.work.graph, cfg, ScopeKey(relay, s.vni), p, at, o).graph, pairs, o);
  }

  lemma RelayArriveSound(w: Work, cfg: Config, report: Report, s: SessionReport, at: Time, o: Oracle)
    requires SoundFor(w, report.reporter) && Fair(o)
    ensures SoundFor(RelayArrive(w, cfg, report, s, at, o).0, report.reporter)
  {
    ResolveInSound(w, cfg, s.relay, at, o, report.reporter);
    var (resolved, r) := ResolveIn(w, cfg, s.relay, at, o);
    TouchCollectedSound(resolved.graph, r.node, report.collectedAt);
    var collected := TouchCollected(resolved.graph, r.node, report.collectedAt);
    TouchObserverSound(collected, r.node, report.collectedAt, at);
    ClaimKeepsSound(TouchObserver(collected, r.node, report.collectedAt, at), report.reporter, r.node);
  }

  lemma RelayTrafficSound(
    w: Work, cfg: Config, report: Report, relay: NodeId, a: NodeId, b: NodeId, s: SessionReport, at: Time)
    requires SoundFor(w, report.reporter)
    ensures SoundFor(RelayTraffic(w, cfg, report, relay, a, b, s, at), report.reporter)
  {
    TouchPeerSound(w.graph, a, at);
    TouchPeerSound(TouchPeer(w.graph, a, at), b, at);
    var key := EdgeOf(a, b);
    var seen := TouchEdge(w.(graph := TouchPeer(TouchPeer(w.graph, a, at), b, at)), key);
    var (aToB, bToA) := if a == key.source then (s.forward, s.backward) else (s.backward, s.forward);
    PutSound(seen.graph, cfg, key, RelaySample(seen.graph, key, relay, s, aToB, bToA, report.collectedAt, at),
             a, b, at);
  }

  lemma RelayOneSound(w: Work, cfg: Config, report: Report, s: SessionReport, at: Time, o: Oracle)
    requires SoundFor(w, report.reporter) && Fair(o)
    ensures SoundFor(RelayOne(w, cfg, report, s, at, o), report.reporter)
  {
    RelayArriveSound(w, cfg, report, s, at, o);
    var (claimed, relay) := RelayArrive(w, cfg, report, s, at, o);
    ResolveSessionSound(claimed, cfg, relay, s, at, o, report.reporter);
    var session := ResolveSession(claimed, cfg, relay, s, at, o);
    var a, b := session.source, session.target;
    TouchCollectedSound(session.work.graph, a, report.collectedAt);
    TouchCollectedSound(TouchCollected(session.work.graph, a, report.collectedAt), b, report.collectedAt);
    var known := session.work.(graph :=
      TouchCollected(TouchCollected(session.work.graph, a, report.collectedAt), b, report.collectedAt));
    if a != b {
      RelayTrafficSound(known, cfg, report, relay, a, b, s, at);
    }
  }

  lemma {:induction false} RelayAllSound(
    w: Work, cfg: Config, report: Report, sessions: seq<SessionReport>, at: Time, o: Oracle)
    requires SoundFor(w, report.reporter) && Fair(o)
    ensures SoundFor(RelayAll(w, cfg, report, sessions, at, o), report.reporter)
  {
    if sessions != [] {
      RelayAllSound(w, cfg, report, sessions[..|sessions| - 1], at, o);
      RelayOneSound(RelayAll(w, cfg, report, sessions[..|sessions| - 1], at, o), cfg, report,
                    sessions[|sessions| - 1], at, o);
    }
  }

  lemma RelearnSound(g: Graph, touched: set<EdgeKey>, cfg: Config, at: Time)
    requires Sound(g)
    ensures Sound(Relearn(g, touched, cfg, at))
    ensures Relearn(g, touched, cfg, at).reporters == g.reporters
  {
    var h := Relearn(g, touched, cfg, at);
    assert forall k | k in h.edges :: KeyedAs(k, h.edges[k]) <== KeyedAs(k, g.edges[k]);
    SkeletonKeepsSound(g, h);
  }

  lemma RememberSound(g: Graph, reporter: ReporterId, memory: Memory)
    requires Sound(g) && reporter in g.reporters
    ensures Sound(g.(reporters := g.reporters[reporter := g.reporters[reporter].(memory := memory)]))
  {
    SkeletonKeepsSound(g, g.(reporters := g.reporters[reporter := g.reporters[reporter].(memory := memory)]));
  }

  lemma FinishSound(w: Work, cfg: Config, report: Report, at: Time)
    requires Sound(w.graph)
    ensures Finish(w, cfg, report, at).Some? ==> Sound(Finish(w, cfg, report, at).value.graph)
  {
    if w.touched.Keys <= w.graph.edges.Keys {
      RelearnSound(w.graph, w.touched.Keys, cfg, at);
      var learned := Relearn(w.graph, w.touched.Keys, cfg, at);
      if report.reporter in learned.reporters {
        RememberSound(learned, report.reporter,
          Remember(learned.reporters[report.reporter].memory, report.sequence, report.id, at));
      }
    }
  }

  lemma EnrolSound(g: Graph, cfg: Config, reporter: ReporterId, at: Time)
    requires Sound(g)
    ensures Sound(Prune(g, cfg, at))
    ensures var h := Enrol(Prune(g, cfg, at), reporter); Sound(h) && reporter in h.reporters
  {
    PruneKeepsSound(g, cfg, at);
  }

  lemma ProcessSound(w: Work, cfg: Config, report: Report, at: Time, o: Oracle)
    requires SoundFor(w, report.reporter) && Fair(o)
    ensures var done := Process(w, cfg, report, at, o); done.Some? ==> SoundFor(done.value, report.reporter)
  {
    if report.kind == Withdrawal {
      WithdrawAllSound(w, cfg, report, report.observers, at);
    } else if report.kind == RelayUpdate {
      RelayAllSound(w, cfg, report, report.sessions, at, o);
    } else {
      ObserveReportsSound(w, cfg, report, report.observers, at, o);
    }
  }

  lemma CarrySound(w: Work, cfg: Config, report: Report, at: Time, o: Oracle)
    requires SoundFor(w, report.reporter) && Fair(o)
    ensures var a := Carry(w, cfg, report, at, o); a.Some? ==> Sound(a.value.graph)
  {
    ProcessSound(w, cfg, report, at, o);
    var done := Process(w, cfg, report, at, o);
    if done.Some? {
      FinishSound(done.value, cfg, report, at);
    }
  }

  /** Whatever the report and whatever the random choices, an applied report keeps the invariant. */
  lemma ApplyKeepsSound(g: Graph, cfg: Config, report: Report, at: Time, o: Oracle)
    requires Sound(g) && Fair(o)
    ensures var a := Apply(g, cfg, report, at, o); a.Some? ==> Sound(a.value.graph)
  {
    EnrolSound(g, cfg, report.reporter, at);
    var enrolled := Enrol(Prune(g, cfg, at), report.reporter);
    var verdict := VerdictOn(enrolled, cfg, report, at);
    var a := Apply(g, cfg, report, at, o);
    match verdict
    case Duplicate => assert a.value.graph == enrolled;
    case Stale => assert a.value.graph == enrolled;
    case NotOwner => assert a.value.graph == Prune(g, cfg, at);
    case Admit(resync) =>
      CarrySound(Work0(enrolled, resync), cfg, report, at, o);
      assert a == Carry(Work0(enrolled, resync), cfg, report, at, o);
  }
}
