/** When a report's outcome is decided by the report alone.

    Fresh node IDs and map orders are random, so replaying a report can rebuild another graph. It
    cannot when the report allocated and merged nothing, which is what the canonical flag tells; nor
    does the stored copy of a report, whose relay disco hints are redacted, replay differently. */
module Determinism {
  import opened Names
  import opened Evidence
  import opened Admission
  import opened Canonical
  import opened Pairing
  import opened Reports

  // ---------------------------------------------------------------------------------------------
  // A report that changed no identity does not depend on the oracle
  // ---------------------------------------------------------------------------------------------

  lemma QuietResolve(g: Graph, cfg: Config, identity: NodeIdentity, at: Time, o: Oracle, p: Oracle)
    ensures !Resolve(g, cfg, identity, at, o).canonical ==>
      Resolve(g, cfg, identity, at, p) == Resolve(g, cfg, identity, at, o)
  {
  }

  lemma QuietResolveIn(w: Work, cfg: Config, identity: NodeIdentity, at: Time, o: Oracle, p: Oracle)
    ensures var (h, r) := ResolveIn(w, cfg, identity, at, o);
      && (w.canonical ==> h.canonical)
      && (!h.canonical ==> ResolveIn(w, cfg, identity, at, p) == (h, r))
  {
    QuietResolve(w.graph, cfg, identity, at, o, p);
  }

  lemma QuietRecordPair(
    g: Graph, cfg: Config, relay: NodeId, vni: int, left: NodeId, right: NodeId, at: Time, o: Oracle, p: Oracle)
    ensures !RecordPair(g, cfg, relay, vni, left, right, at, o).changed ==>
      RecordPair(g, cfg, relay, vni, left, right, at, p) == RecordPair(g, cfg, relay, vni, left, right, at, o)
  {
  }

  lemma QuietListPeer(
    l: Listing, cfg: Config, peer: PeerObservation, collectedAt: Time, at: Time, o: Oracle, p: Oracle)
    ensures var h := ListPeer(l, cfg, peer, collectedAt, at, o);
      && (l.work.canonical ==> h.work.canonical)
      && (!h.work.canonical ==> ListPeer(l, cfg, peer, collectedAt, at, p) == h)
  {
    QuietResolveIn(l.work, cfg, peer.peer, at, o, p);
    QuietHeld(l.work.graph, cfg, peer.peer, at, o, p, l.held);
  }

  lemma QuietHeld(g: Graph, cfg: Config, identity: NodeIdentity, at: Time, o: Oracle, p: Oracle, held: Held)
    ensures !Resolve(g, cfg, identity, at, o).canonical ==>
      HeldOnResolve(g, cfg, identity, at, o, held) == held && HeldOnResolve(g, cfg, identity, at, p, held) == held
  {
  }

  lemma {:induction false} QuietListPeers(
    w: Work, cfg: Config, node: NodeId, peers: seq<PeerObservation>, collectedAt: Time, at: Time, o: Oracle, p: Oracle)
    ensures var h := ListPeers(w, cfg, node, peers, collectedAt, at, o);
      && (w.canonical ==> h.work.canonical)
      && (!h.work.canonical ==> ListPeers(w, cfg, node, peers, collectedAt, at, p) == h)
  {
    if peers != [] {
      var before, last := peers[..|peers| - 1], peers[|peers| - 1];
      QuietListPeers(w, cfg, node, before, collectedAt, at, o, p);
      QuietListPeer(ListPeers(w, cfg, node, before, collectedAt, at, o), cfg, last, collectedAt, at, o, p);
    }
  }

  lemma QuietPairThroughRelay(
    w: Work, cfg: Config, node: NodeId, peerNode: NodeId, path: Path, collectedAt: Time, at: Time, o: Oracle, p: Oracle)
    ensures var h := PairThroughRelay(w, cfg, node, peerNode, path, collectedAt, at, o);
      && (w.canonical ==> h.canonical)
      && (!h.canonical ==> PairThroughRelay(w, cfg, node, peerNode, path, collectedAt, at, p) == h)
  {
    if path.kind == PeerRelay && path.vni.Some? && path.stable != EMPTY {
      QuietResolveIn(w, cfg, NO_IDENTITY.(stable := path.stable), at, o, p);
      var (h, r) := ResolveIn(w, cfg, NO_IDENTITY.(stable := path.stable), at, o);
      QuietRecordPair(TouchCollected(h.graph, r.node, collectedAt), cfg, r.node, path.vni.value,
                      node, peerNode, at, o, p);
    }
  }

  lemma QuietSamplePeer(
    w: Work, cfg: Config, node: NodeId, peer: PeerObservation, collectedAt: Time, at: Time, o: Oracle, p: Oracle)
    ensures var h := SamplePeer(w, cfg, node, peer, collectedAt, at, o);
      && (w.canonical ==> h.canonical)
      && (!h.canonical ==> SamplePeer(w, cfg, node, peer, collectedAt, at, p) == h)
  {
    if !(peer.rx == 0 && peer.tx == 0) {
      QuietResolveIn(w, cfg, peer.peer, at, o, p);
      var (h, r) := ResolveIn(w, cfg, peer.peer, at, o);
      var seen := h.(graph := TouchPeer(TouchCollected(h.graph, r.node, collectedAt), r.node, at));
      QuietPairThroughRelay(TouchEdge(seen, EdgeOf(node, r.node)), cfg, node, r.node, peer.path, collectedAt, at, o, p);
    }
  }

  lemma {:induction false} QuietSamplePeers(
    w: Work, cfg: Config, node: NodeId, peers: seq<PeerObservation>, collectedAt: Time, at: Time, o: Oracle, p: Oracle)
    ensures var h := SamplePeers(w, cfg, node, peers, collectedAt, at, o);
      && (w.canonical ==> h.canonical)
      && (!h.canonical ==> SamplePeers(w, cfg, node, peers, collectedAt, at, p) == h)
  {
    if peers != [] {
      var before, last := peers[..|peers| - 1], peers[|peers| - 1];
      QuietSamplePeers(w, cfg, node, before, collectedAt, at, o, p);
      QuietSamplePeer(SamplePeers(w, cfg, node, before, collectedAt, at, o), cfg, node, last, collectedAt, at, o, p);
    }
  }

  lemma QuietArrive(w: Work, cfg: Config, report: Report, ob: ObserverReport, at: Time, o: Oracle, p: Oracle)
    ensures var h := Arrive(w, cfg, report, ob, at, o);
      && (w.canonical ==> h.0.canonical)
      && (!h.0.canonical ==> Arrive(w, cfg, report, ob, at, p) == h)
  {
    QuietResolveIn(w, cfg, ob.observer, at, o, p);
  }

  lemma QuietObserveOne(w: Work, cfg: Config, report: Report, ob: ObserverReport, at: Time, o: Oracle, p: Oracle)
    ensures var h := ObserveOne(w, cfg, report, ob, at, o);
      h.Some? ==>
        && (w.canonical ==> h.value.canonical)
        && (!h.value.canonical ==> ObserveOne(w, cfg, report, ob, at, p) == h)
  {
    var collectedAt := CollectionTime(ob, report.collectedAt);
    QuietArrive(w, cfg, report, ob, at, o, p);
    var (here, node) := Arrive(w, cfg, report, ob, at, o);
    if report.kind == Hello || report.kind == InventoryUpdate {
      QuietListPeers(here, cfg, node, ob.peers, collectedAt, at, o, p);
    } else if node in here.graph.observers {
      var stale := here.graph.observers[node].generation != ob.generation;
      QuietSamplePeers(here.(resync := here.resync || stale), cfg, node, ob.peers, collectedAt, at, o, p);
    }
  }

  lemma {:induction false} QuietObserveReports(
    w: Work, cfg: Config, report: Report, obs: seq<ObserverReport>, at: Time, o: Oracle, p: Oracle)
    ensures var h := ObserveReports(w, cfg, report, obs, at, o);
      h.Some? ==>
        && (w.canonical ==> h.value.canonical)
        && (!h.value.canonical ==> ObserveReports(w, cfg, report, obs, at, p) == h)
  {
    if obs != [] {
      var before, last := obs[..|obs| - 1], obs[|obs| - 1];
      QuietObserveReports(w, cfg, report, before, at, o, p);
      var h := ObserveReports(w, cfg, report, before, at, o);
      if h.Some? {
        QuietObserveOne(h.value, cfg, report, last, at, o, p);
      }
    }
  }

  lemma QuietResolveClient(
    w: Work, cfg: Config, existing: Option<NodeId>, c: RelayClient, at: Time, o: Oracle, p: Oracle)
    ensures var h := ResolveClient(w, cfg, existing, c, at, o);
      && (w.canonical ==> h.work.canonical)
      && (!h.work.canonical ==> ResolveClient(w, cfg, existing, c, at, p) == h)
  {
    if c.identity.Some? {
      QuietResolveIn(w, cfg, c.identity.value, at, o, p);
    }
  }

  lemma QuietRedirects(g: Graph, cfg: Config, identity: NodeIdentity, at: Time, o: Oracle)
    ensures var r := Resolve(g, cfg, identity, at, o); !r.canonical ==> r.graph.redirects == g.redirects
  {
  }

  lemma QuietClientRedirects(w: Work, cfg: Config, existing: Option<NodeId>, c: RelayClient, at: Time, o: Oracle)
    ensures var h := ResolveClient(w, cfg, existing, c, at, o).work;
      !h.canonical ==> h.graph.redirects == w.graph.redirects
  {
    if c.identity.Some? {
      QuietRedirects(w.graph, cfg, c.identity.value, at, o);
    }
  }

  lemma NothingTangled(g: Graph, h: Graph, key: ScopeKey)
    requires h.redirects == g.redirects
    ensures !Tangled(g, h, key)
  {
  }

  /** Without a merge no scope merges away. */
  lemma QuietUntangled(
    w: Work, cfg: Config, existing: Option<NodeId>, c: RelayClient, at: Time, o: Oracle, key: ScopeKey)
    ensures var h := ResolveClient(w, cfg, existing, c, at, o).work;
      !h.canonical ==> !Tangled(w.graph, h.graph, key)
  {
    var h := ResolveClient(w, cfg, existing, c, at, o).work;
    QuietClientRedirects(w, cfg, existing, c, at, o);
    if !h.canonical {
      NothingTangled(w.graph, h.graph, key);
    }
  }

  lemma QuietPlaceClient(
    w: Work, cfg: Config, key: ScopeKey, id: Text, c: RelayClient, at: Time, o: Oracle, p: Oracle)
    ensures var h := PlaceClient(w, cfg, key, id, c, at, o);
      && (w.canonical ==> h.0.work.canonical)
      && (!h.0.work.canonical ==> !h.1 && PlaceClient(w, cfg, key, id, c, at, p) == h)
  {
    var existing := ClientNode(w.graph, key, id, c.id);
    QuietResolveClient(w, cfg, existing, c, at, o, p);
    QuietUntangled(w, cfg, existing, c, at, o, key);
  }

  lemma QuietPlaceSession(
    w: Work, cfg: Config, relay: NodeId, s: SessionReport, at: Time, o: Oracle, p: Oracle)
    ensures var h := PlaceSession(w, cfg, relay, s, at, o);
      && (w.canonical ==> h.work.canonical)
      && (!h.work.canonical ==> !h.tangled && PlaceSession(w, cfg, relay, s, at, p) == h)
  {
    var key := ScopeKey(relay, s.vni);
    var entered := EnterSession(w, key, s.id, at);
    QuietPlaceClient(entered, cfg, key, s.id, s.source, at, o, p);
    var (a, _) := PlaceClient(entered, cfg, key, s.id, s.source, at, o);
    QuietPlaceClient(a.work, cfg, key, s.id, s.target, at, o, p);
  }

  lemma QuietSettlePair(g: Graph, cfg: Config, key: ScopeKey, placed: Placed, at: Time, o: Oracle, p: Oracle)
    requires !placed.tangled
    ensures !SettlePair(g, cfg, key, placed, at, o).changed ==>
      && !SettlePair(g, cfg, key, placed, at, o).tangled
      && SettlePair(g, cfg, key, placed, at, p) == SettlePair(g, cfg, key, placed, at, o)
  {
    QuietRecordPair(g, cfg, key.relay, key.vni, placed.source.node, placed.target.node, at, o, p);
  }

  lemma QuietResolveSession(
    w: Work, cfg: Config, relay: NodeId, s: SessionReport, at: Time, o: Oracle, p: Oracle)
    ensures var h := ResolveSession(w, cfg, relay, s, at, o);
      && (w.canonical ==> h.work.canonical)
      && (!h.work.canonical ==> ResolveSession(w, cfg, relay, s, at, p) == h)
  {
    QuietPlaceSession(w, cfg, relay, s, at, o, p);
    var placed := PlaceSession(w, cfg, relay, s, at, o);
    if !placed.work.canonical {
      QuietSettlePair(placed.work.graph, cfg, ScopeKey(relay, s.vni), placed, at, o, p);
    }
  }

  lemma QuietRelayArrive(w: Work, cfg: Config, report: Report, s: SessionReport, at: Time, o: Oracle, p: Oracle)
    ensures var h := RelayArrive(w, cfg, report, s, at, o);
      && (w.canonical ==> h.0.canonical)
      && (!h.0.canonical ==> RelayArrive(w, cfg, report, s, at, p) == h)
  {
    QuietResolveIn(w, cfg, s.relay, at, o, p);
  }

  lemma SettleKeepsFlag(session: SessionResult, cfg: Config, report: Report, relay: NodeId, s: SessionReport, at: Time)
    ensures RelaySettle(session, cfg, report, relay, s, at).canonical == session.work.canonical
  {
  }

  lemma QuietRelayOne(w: Work, cfg: Config, report: Report, s: SessionReport, at: Time, o: Oracle, p: Oracle)
    ensures var h := RelayOne(w, cfg, report, s, at, o);
      && (w.canonical ==> h.canonical)
      && (!h.canonical ==> RelayOne(w, cfg, report, s, at, p) == h)
  {
    QuietRelayArrive(w, cfg, report, s, at, o, p);
    var (claimed, relay) := RelayArrive(w, cfg, report, s, at, o);
    QuietResolveSession(claimed, cfg, relay, s, at, o, p);
    SettleKeepsFlag(ResolveSession(claimed, cfg, relay, s, at, o), cfg, report, relay, s, at);
  }

  lemma {:induction false} QuietRelayAll(
    w: Work, cfg: Config, report: Report, sessions: seq<SessionReport>, at: Time, o: Oracle, p: Oracle)
    ensures var h := RelayAll(w, cfg, report, sessions, at, o);
      && (w.canonical ==> h.canonical)
      && (!h.canonical ==> RelayAll(w, cfg, report, sessions, at, p) == h)
  {
    if sessions != [] {
      var before, last := sessions[..|sessions| - 1], sessions[|sessions| - 1];
      QuietRelayAll(w, cfg, report, before, at, o, p);
      QuietRelayOne(RelayAll(w, cfg, report, before, at, o), cfg, report, last, at, o, p);
    }
  }

  lemma QuietProcess(w: Work, cfg: Config, report: Report, at: Time, o: Oracle, p: Oracle)
    ensures var h := Process(w, cfg, report, at, o);
      h.Some? && !h.value.canonical ==> Process(w, cfg, report, at, p) == h
  {
    QuietRelayAll(w, cfg, report, report.sessions, at, o, p);
    QuietObserveReports(w, cfg, report, report.observers, at, o, p);
  }

  /** A report that neither allocated nor merged a node, whichever IDs and orders were drawn, ends in the
      same graph under any other draw. */
  lemma QuietIsDeterministic(g: Graph, cfg: Config, report: Report, at: Time, o: Oracle, p: Oracle)
    ensures var a := Apply(g, cfg, report, at, o);
      a.Some? && !a.value.canonical ==> Apply(g, cfg, report, at, p) == a
  {
    var enrolled := Enrol(Prune(g, cfg, at), report.reporter);
    var verdict := VerdictOn(enrolled, cfg, report, at);
    if verdict.Admit? {
      QuietProcess(Work0(enrolled, verdict.resync), cfg, report, at, o, p);
    }
  }

  // ---------------------------------------------------------------------------------------------
  // Redacting the relay hints of a stored report
  // ---------------------------------------------------------------------------------------------

  /** The text "present". */
  const PRESENT: Text := 5

  function Presence(hint: Text): Text {
    if hint == EMPTY then EMPTY else PRESENT
  }

  function RedactClient(c: RelayClient): RelayClient {
    c.(discoShort := Presence(c.discoShort))
  }

  function RedactSession(s: SessionReport): SessionReport {
    s.(source := RedactClient(s.source), target := RedactClient(s.target))
  }

  function RedactSessions(sessions: seq<SessionReport>): seq<SessionReport> {
    if sessions == [] then []
    else RedactSessions(sessions[..|sessions| - 1]) + [RedactSession(sessions[|sessions| - 1])]
  }

  /** reportWithRedactedRelayHints. */
  function Redact(report: Report): Report {
    report.(sessions := RedactSessions(report.sessions))
  }

  lemma RedactedClient(w: Work, cfg: Config, existing: Option<NodeId>, c: RelayClient, at: Time, o: Oracle)
    ensures ResolveClient(w, cfg, existing, RedactClient(c), at, o) == ResolveClient(w, cfg, existing, c, at, o)
  {
    assert ClientStatus(RedactClient(c)) == ClientStatus(c);
  }

  lemma RedactedPlaceClient(w: Work, cfg: Config, key: ScopeKey, id: Text, c: RelayClient, at: Time, o: Oracle)
    ensures PlaceClient(w, cfg, key, id, RedactClient(c), at, o) == PlaceClient(w, cfg, key, id, c, at, o)
  {
    RedactedClient(w, cfg, ClientNode(w.graph, key, id, c.id), c, at, o);
  }

  lemma RedactedPlace(w: Work, cfg: Config, relay: NodeId, s: SessionReport, at: Time, o: Oracle)
    ensures PlaceSession(w, cfg, relay, RedactSession(s), at, o) == PlaceSession(w, cfg, relay, s, at, o)
  {
    var key := ScopeKey(relay, s.vni);
    var entered := EnterSession(w, key, s.id, at);
    RedactedPlaceClient(entered, cfg, key, s.id, s.source, at, o);
    var (a, _) := PlaceClient(entered, cfg, key, s.id, s.source, at, o);
    RedactedPlaceClient(a.work, cfg, key, s.id, s.target, at, o);
  }

  lemma RedactedResolve(w: Work, cfg: Config, relay: NodeId, s: SessionReport, at: Time, o: Oracle)
    ensures ResolveSession(w, cfg, relay, RedactSession(s), at, o) == ResolveSession(w, cfg, relay, s, at, o)
  {
    RedactedPlace(w, cfg, relay, s, at, o);
  }

  lemma RedactedSettle(session: SessionResult, cfg: Config, report: Report, relay: NodeId, s: SessionReport, at: Time)
    ensures RelaySettle(session, cfg, Redact(report), relay, RedactSession(s), at)
         == RelaySettle(session, cfg, report, relay, s, at)
  {
  }

  lemma RedactedRelayOne(w: Work, cfg: Config, report: Report, s: SessionReport, at: Time, o: Oracle)
    ensures RelayOne(w, cfg, Redact(report), RedactSession(s), at, o) == RelayOne(w, cfg, report, s, at, o)
  {
    var (claimed, relay) := RelayArrive(w, cfg, report, s, at, o);
    assert RelayArrive(w, cfg, Redact(report), RedactSession(s), at, o) == (claimed, relay);
    RedactedResolve(claimed, cfg, relay, s, at, o);
    RedactedSettle(ResolveSession(claimed, cfg, relay, s, at, o), cfg, report, relay, s, at);
  }

  lemma {:induction false} RedactedRelayAll(
    w: Work, cfg: Config, report: Report, sessions: seq<SessionReport>, at: Time, o: Oracle)
    ensures RelayAll(w, cfg, Redact(report), RedactSessions(sessions), at, o)
      == RelayAll(w, cfg, report, sessions, at, o)
  {
    if sessions != [] {
      var before, last := sessions[..|sessions| - 1], sessions[|sessions| - 1];
      var redacted := RedactSessions(sessions);
      assert redacted[..|redacted| - 1] == RedactSessions(before);
      RedactedRelayAll(w, cfg, report, before, at, o);
      RedactedRelayOne(RelayAll(w, cfg, report, before, at, o), cfg, report, last, at, o);
    }
  }

  lemma {:induction false} RedactedWithdrawAll(w: Work, cfg: Config, report: Report, obs: seq<ObserverReport>, at: Time)
    ensures WithdrawAll(w, cfg, Redact(report), obs, at) == WithdrawAll(w, cfg, report, obs, at)
  {
    if obs != [] {
      RedactedWithdrawAll(w, cfg, report, obs[..|obs| - 1], at);
    }
  }

  lemma RedactedObserveOne(w: Work, cfg: Config, report: Report, ob: ObserverReport, at: Time, o: Oracle)
    ensures ObserveOne(w, cfg, Redact(report), ob, at, o) == ObserveOne(w, cfg, report, ob, at, o)
  {
    RedactedArrive(w, cfg, report, ob, at, o);
    SameArrival(w, cfg, report, Redact(report), ob, at, o);
  }

  /** What becomes of an observer depends on its arrival, and on the kind and the time of the report. */
  lemma SameArrival(w: Work, cfg: Config, left: Report, right: Report, ob: ObserverReport, at: Time, o: Oracle)
    requires left.kind == right.kind && left.collectedAt == right.collectedAt
    requires Arrive(w, cfg, left, ob, at, o) == Arrive(w, cfg, right, ob, at, o)
    ensures ObserveOne(w, cfg, left, ob, at, o) == ObserveOne(w, cfg, right, ob, at, o)
  {
  }

  lemma RedactedArrive(w: Work, cfg: Config, report: Report, ob: ObserverReport, at: Time, o: Oracle)
    ensures Arrive(w, cfg, Redact(report), ob, at, o) == Arrive(w, cfg, report, ob, at, o)
  {
  }

  lemma {:induction false} RedactedObserveReports(
    w: Work, cfg: Config, report: Report, obs: seq<ObserverReport>, at: Time, o: Oracle)
    ensures ObserveReports(w, cfg, Redact(report), obs, at, o) == ObserveReports(w, cfg, report, obs, at, o)
  {
    if obs != [] {
      var before := ObserveReports(w, cfg, report, obs[..|obs| - 1], at, o);
      RedactedObserveReports(w, cfg, report, obs[..|obs| - 1], at, o);
      if before.Some? {
        RedactedObserveOne(before.value, cfg, report, obs[|obs| - 1], at, o);
      }
    }
  }

  lemma RedactedProcess(w: Work, cfg: Config, report: Report, at: Time, o: Oracle)
    ensures Process(w, cfg, Redact(report), at, o) == Process(w, cfg, report, at, o)
  {
    if report.kind == Withdrawal {
      RedactedWithdrawAll(w, cfg, report, report.observers, at);
    } else if report.kind == RelayUpdate {
      RedactedRelayAll(w, cfg, report, report.sessions, at, o);
    } else {
      RedactedObserveReports(w, cfg, report, report.observers, at, o);
    }
  }

  lemma RedactedFinish(w: Work, cfg: Config, report: Report, at: Time)
    ensures Finish(w, cfg, Redact(report), at) == Finish(w, cfg, report, at)
  {
  }

  /** The stored copy replays exactly as the live report was applied. */
  lemma RedactionIsInvisible(g: Graph, cfg: Config, report: Report, at: Time, o: Oracle)
    ensures Apply(g, cfg, Redact(report), at, o) == Apply(g, cfg, report, at, o)
  {
    var enrolled := Enrol(Prune(g, cfg, at), report.reporter);
    var verdict := VerdictOn(enrolled, cfg, report, at);
    if verdict.Admit? {
      var w := Work0(enrolled, verdict.resync);
      RedactedProcess(w, cfg, report, at, o);
      var done := Process(w, cfg, report, at, o);
      if done.Some? {
        RedactedFinish(done.value, cfg, report, at);
      }
    }
  }
}
