/** Applying a report to the canonical graph (internal/aggregate/aggregator.go, applyLocked). */
module Reports {
  import opened Names
  import opened Evidence
  import opened Admission
  import opened Canonical
  import opened Pairing

  datatype PeerObservation = PeerObservation(
    peer: NodeIdentity, rx: int, tx: int, milliseconds: int,
    path: Path, fallback: Option<Path>, evidence: EvidenceKind, rule: Text)

  datatype ObserverReport = ObserverReport(
    observer: NodeIdentity, generation: Text, collectedAt: Option<Time>, peers: seq<PeerObservation>)

  datatype RelayClient = RelayClient(id: Text, identity: Option<NodeIdentity>, discoShort: Text)

  datatype SessionReport = SessionReport(
    relay: NodeIdentity, source: RelayClient, target: RelayClient, id: Text, vni: int,
    forward: int, backward: int, milliseconds: int)

  datatype Report = Report(
    id: Text, reporter: ReporterId, sequence: int, collectedAt: Time, kind: Kind,
    observers: seq<ObserverReport>, sessions: seq<SessionReport>)

  datatype Traffic = Traffic(key: EdgeKey, observer: NodeId, aToB: int, bToA: int, at: Time)

  /** `canonical` and `checkpoint` are what forces a checkpoint; `transitions` are the logged changes. */
  datatype Applied = Applied(
    graph: Graph, accepted: bool, resync: bool, changed: bool, canonical: bool, checkpoint: bool,
    traffic: seq<Traffic>, transitions: map<EdgeKey, Evidence>)

  /** The locals of applyLocked: the edges touched so far with their evidence before, and the flags. */
  datatype Work = Work(
    graph: Graph, touched: map<EdgeKey, Option<Evidence>>, traffic: seq<Traffic>,
    canonical: bool, checkpoint: bool, resync: bool)

  function CollectionTime(ob: ObserverReport, fallback: Time): Time {
    if ob.collectedAt.Some? then ob.collectedAt.value else fallback
  }

  function TouchEdge(w: Work, key: EdgeKey): Work {
    if key in w.touched then w
    else w.(touched := w.touched[key := if key in w.graph.edges then w.graph.edges[key].lastKnown else None])
  }

  function TouchObserverEdges(w: Work, node: NodeId): Work {
    var seen := map k | k in w.graph.edges && node in w.graph.edges[k].observations :: w.graph.edges[k].lastKnown;
    w.(touched := seen + w.touched)
  }

  function ResolveIn(w: Work, cfg: Config, identity: NodeIdentity, at: Time, o: Oracle): (Work, Resolution) {
    var r := Resolve(w.graph, cfg, identity, at, o);
    (w.(graph := r.graph, canonical := w.canonical || r.canonical), r)
  }

  // ---------------------------------------------------------------------------------------------
  // Observer reports
  // ---------------------------------------------------------------------------------------------

  function WithdrawOne(w: Work, cfg: Config, report: Report, ob: ObserverReport, at: Time): Work {
    var found := Lookup(w.graph, cfg, ob.observer, at);
    if found.None? then w
    else
      var node := found.value;
      if node !in w.graph.observers || w.graph.observers[node].owner != Some(report.reporter) then w
      else
        var touched := w.(graph := TouchObserver(w.graph, node, CollectionTime(ob, report.collectedAt), at));
        var marked := TouchObserverEdges(touched, node);
        marked.(graph := Withdraw(marked.graph, report.reporter, node, at), checkpoint := true)
  }

  function WithdrawAll(w: Work, cfg: Config, report: Report, obs: seq<ObserverReport>, at: Time): Work {
    if obs == [] then w
    else WithdrawOne(WithdrawAll(w, cfg, report, obs[..|obs| - 1], at), cfg, report, obs[|obs| - 1], at)
  }

  /** The record that a pointer to an observer's state refers to: that of a live node, or one that was thrown
      away when the node was merged into another with a record of its own. */
  datatype Held = At(node: NodeId) | Discarded(membership: set<NodeId>)

  function HeldOnMerge(g: Graph, keep: NodeId, remove: NodeId, held: Held): Held {
    if held != At(remove) || keep !in g.nodes || remove !in g.nodes || keep == remove then held
    else if keep in g.observers && remove in g.observers then Discarded(g.observers[remove].membership)
    else At(keep)
  }

  function HeldOnMerges(g: Graph, keep: NodeId, others: seq<NodeId>, o: Oracle, held: Held): Held {
    if others == [] then held
    else
      var before := others[..|others| - 1];
      HeldOnMerge(MergeAll(g, keep, before, o), keep, others[|others| - 1], HeldOnMerges(g, keep, before, o, held))
  }

  /** What becomes of it while an identity is resolved. */
  function HeldOnResolve(g: Graph, cfg: Config, identity: NodeIdentity, at: Time, o: Oracle, held: Held): Held {
    var i := WithoutConflict(g, identity);
    var matches := Matches(g, cfg, i, at);
    if matches == {} then held
    else HeldOnMerges(g, Survivor(g, i, matches), Ascending(matches - {Survivor(g, i, matches)}), o, held)
  }

  datatype Listing = Listing(work: Work, members: set<NodeId>, held: Held)

  function ListPeer(l: Listing, cfg: Config, peer: PeerObservation, collectedAt: Time, at: Time, o: Oracle): Listing {
    var (resolved, r) := ResolveIn(l.work, cfg, peer.peer, at, o);
    var collected := TouchCollected(resolved.graph, r.node, collectedAt);
    var seen := if r.created then TouchPeer(collected, r.node, at) else collected;
    Listing(resolved.(graph := seen), l.members + {r.node}, HeldOnResolve(l.work.graph, cfg, peer.peer, at, o, l.held))
  }

  function ListPeers(
    w: Work, cfg: Config, node: NodeId, peers: seq<PeerObservation>, collectedAt: Time, at: Time, o: Oracle): Listing
  {
    if peers == [] then Listing(w, {}, At(node))
    else ListPeer(ListPeers(w, cfg, node, peers[..|peers| - 1], collectedAt, at, o), cfg, peers[|peers| - 1],
                  collectedAt, at, o)
  }

  /** replaceInventoryLocked through the pointer: a discarded record takes the update with it. */
  function ReplaceHeld(g: Graph, held: Held, node: NodeId, generation: Text, members: set<NodeId>): Graph {
    match held
    case At(home) => if home in g.observers then ReplaceInventory(g, home, node, generation, members) else g
    case Discarded(membership) => g.(edges := WithoutPeers(g.edges, node, membership - members))
  }

  function PeerSample(node: NodeId, peer: PeerObservation, collectedAt: Time, at: Time): Observation {
    Observation(node, peer.path, peer.fallback, peer.evidence, peer.rule, collectedAt, at, NEVER,
                PerSecond(peer.tx, peer.milliseconds), PerSecond(peer.rx, peer.milliseconds), 0.0, 0.0)
  }

  /** A peer seen through a relay pairs its two ends under that relay's session number. */
  function PairThroughRelay(
    w: Work, cfg: Config, node: NodeId, peerNode: NodeId, path: Path, collectedAt: Time, at: Time, o: Oracle): Work
  {
    if path.kind == PeerRelay && path.vni.Some? && path.stable != EMPTY then
      var (resolved, r) := ResolveIn(w, cfg, NO_IDENTITY.(stable := path.stable), at, o);
      var collected := TouchCollected(resolved.graph, r.node, collectedAt);
      var paired := RecordPair(collected, cfg, r.node, path.vni.value, node, peerNode, at, o);
      resolved.(graph := paired.graph, canonical := resolved.canonical || paired.changed)
    else w
  }

  function SamplePeer(
    w: Work, cfg: Config, node: NodeId, peer: PeerObservation, collectedAt: Time, at: Time, o: Oracle): Work
  {
    if peer.rx == 0 && peer.tx == 0 then w
    else
      var (resolved, r) := ResolveIn(w, cfg, peer.peer, at, o);
      var seen := resolved.(graph := TouchPeer(TouchCollected(resolved.graph, r.node, collectedAt), r.node, at));
      var key := EdgeOf(node, r.node);
      var paired := PairThroughRelay(TouchEdge(seen, key), cfg, node, r.node, peer.path, collectedAt, at, o);
      var put := PutObservation(paired.graph, key, PeerSample(node, peer, collectedAt, at), at);
      paired.(
        graph := MarkSystem(put, cfg, key, node, r.node),
        traffic := paired.traffic + [
          if node == key.source then Traffic(key, node, peer.tx, peer.rx, at)
          else Traffic(key, node, peer.rx, peer.tx, at)])
  }

  function SamplePeers(
    w: Work, cfg: Config, node: NodeId, peers: seq<PeerObservation>, collectedAt: Time, at: Time, o: Oracle): Work
  {
    if peers == [] then w
    else SamplePeer(SamplePeers(w, cfg, node, peers[..|peers| - 1], collectedAt, at, o), cfg, node,
                    peers[|peers| - 1], collectedAt, at, o)
  }

  /** The observer itself: resolved, claimed if it says hello, and touched. */
  function Arrive(w: Work, cfg: Config, report: Report, ob: ObserverReport, at: Time, o: Oracle): (Work, NodeId) {
    var collectedAt := CollectionTime(ob, report.collectedAt);
    var (resolved, r) := ResolveIn(w, cfg, ob.observer, at, o);
    var collected := TouchCollected(resolved.graph, r.node, collectedAt);
    var claimed := if report.kind == Hello then Claim(collected, report.reporter, r.node) else collected;
    (resolved.(graph := TouchObserver(claimed, r.node, collectedAt, at)), r.node)
  }

  /** One observer of an admitted report. No result stands for the nil dereference that the program runs
      into when ownership was checked on one node and resolution settles on another without a record. */
  function ObserveOne(w: Work, cfg: Config, report: Report, ob: ObserverReport, at: Time, o: Oracle): Option<Work> {
    var collectedAt := CollectionTime(ob, report.collectedAt);
    var (here, node) := Arrive(w, cfg, report, ob, at, o);
    if node !in here.graph.observers then None
    else if report.kind == Hello || report.kind == InventoryUpdate then
      var listing := ListPeers(here, cfg, node, ob.peers, collectedAt, at, o);
      var marked := TouchObserverEdges(listing.work, node);
      Some(marked.(graph := ReplaceHeld(marked.graph, listing.held, node, ob.generation, listing.members)))
    else
      var stale := here.graph.observers[node].generation != ob.generation;
      var noted := here.(resync := here.resync || stale);
      if report.kind == TrafficSample
      then Some(SamplePeers(noted, cfg, node, ob.peers, collectedAt, at, o))
      else Some(noted)
  }

  function ObserveReports(w: Work, cfg: Config, report: Report, obs: seq<ObserverReport>, at: Time,
      o: Oracle): Option<Work>
  {
    if obs == [] then Some(w)
    else
      var before :- ObserveReports(w, cfg, report, obs[..|obs| - 1], at, o);
      ObserveOne(before, cfg, report, obs[|obs| - 1], at, o)
  }

  // ---------------------------------------------------------------------------------------------
  // Relay session reports
  // ---------------------------------------------------------------------------------------------

  /** A relay client without an identity is partial if it showed any disco hint, whatever the hint. */
  function ClientStatus(c: RelayClient): IdentityStatus {
    if c.identity.Some? && HasIdentity(c.identity.value) then Resolved
    else if c.discoShort != EMPTY then Partial
    else Anonymous
  }

  datatype ClientResult = ClientResult(work: Work, node: NodeId, status: IdentityStatus)

  /** resolveRelayClientLocked; `existing` is the node this client had in the session before. */
  function ResolveClient(w: Work, cfg: Config, existing: Option<NodeId>, c: RelayClient, at: Time,
      o: Oracle): ClientResult
  {
    if c.identity.Some? && StatusOf(c.identity.value) == Resolved then
      var (resolved, r) := ResolveIn(w, cfg, c.identity.value, at, o);
      var moved := existing.Some? && existing.value != r.node;
      ClientResult(
        resolved.(graph := if moved then Merge(resolved.graph, r.node, existing.value, o) else resolved.graph,
                  canonical := resolved.canonical || moved || existing.None?),
        r.node, Resolved)
    else if existing.Some? then
      var g := w.graph;
      var node := existing.value;
      ClientResult(
        if node in g.nodes && g.nodes[node].status != Resolved
        then w.(graph := g.(nodes := g.nodes[node := g.nodes[node].(status := ClientStatus(c))]))
        else w,
        node, ClientStatus(c))
    else
      var id := o.newId(w.graph);
      ClientResult(
        w.(graph := w.graph.(nodes := w.graph.nodes[id := NewNode(NO_IDENTITY, ClientStatus(c), at)]),
           canonical := true),
        id, ClientStatus(c))
  }

  function ClientNode(g: Graph, key: ScopeKey, session: Text, client: Text): Option<NodeId> {
    if key in g.scopes && session in g.scopes[key].sessions && client in g.scopes[key].sessions[session].clients
    then Some(g.scopes[key].sessions[session].clients[client])
    else None
  }

  /** The scope and the session, made if they were not there, as last seen now. */
  function EnterSession(w: Work, key: ScopeKey, id: Text, at: Time): Work {
    var created := key !in w.graph.scopes || id !in w.graph.scopes[key].sessions;
    var scope := ScopeAt(w.graph, key, at);
    var session := (if id in scope.sessions then scope.sessions[id] else NewSession(key.relay)).(lastSeen := at);
    w.(graph := w.graph.(scopes := w.graph.scopes[key := scope.(sessions := scope.sessions[id := session])]),
       canonical := w.canonical || created)
  }

  function PutClient(g: Graph, key: ScopeKey, id: Text, client: Text, node: NodeId): Graph {
    if !HasSession(g, key, id) then g
    else PutSession(g, key, id, SessionOf(g, key, id).(clients := SessionOf(g, key, id).clients[client := node]))
  }

  /** A client resolved and remembered on its session, unless the session's scope merged away meanwhile. */
  function PlaceClient(w: Work, cfg: Config, key: ScopeKey, id: Text, c: RelayClient, at: Time, o: Oracle)
    : (ClientResult, bool)
  {
    var r := ResolveClient(w, cfg, ClientNode(w.graph, key, id, c.id), c, at, o);
    if Tangled(w.graph, r.work.graph, key)
    then (r.(work := r.work.(graph := r.work.graph.(scopes := o.inferredScopes(r.work.graph)))), true)
    else (r.(work := r.work.(graph := PutClient(r.work.graph, key, id, c.id, r.node))), false)
  }

  function PutEnds(g: Graph, key: ScopeKey, s: SessionReport, a: ClientResult, b: ClientResult): Graph {
    if !HasSession(g, key, s.id) then g
    else PutSession(g, key, s.id, SessionOf(g, key, s.id).(
      sourceClient := s.source.id, targetClient := s.target.id, source := a.node, target := b.node,
      sourceStatus := a.status, targetStatus := b.status))
  }

  datatype Placed = Placed(work: Work, source: ClientResult, target: ClientResult, tangled: bool)

  /** Both clients placed on the session, before any pair is reasoned about. The target is resolved after the
      source, and can absorb its node. */
  function PlaceSession(w: Work, cfg: Config, relay: NodeId, s: SessionReport, at: Time, o: Oracle): Placed {
    var key := ScopeKey(relay, s.vni);
    var (a, lost) := PlaceClient(EnterSession(w, key, s.id, at), cfg, key, s.id, s.source, at, o);
    var (b, gone) := PlaceClient(a.work, cfg, key, s.id, s.target, at, o);
    if lost || gone then Placed(b.work, a, b, true)
    else Placed(b.work.(graph := PutEnds(b.work.graph, key, s, a, b)), a, b, false)
  }

  /** Two resolved clients make a pair; anything less may be inferred from a pair already known. */
  function SettlePair(g: Graph, cfg: Config, key: ScopeKey, p: Placed, at: Time, o: Oracle): Reconciled {
    if p.source.node == p.target.node then Reconciled(g, false, p.tangled)
    else if p.tangled then Reconciled(AfterInference(g, o), true, true)
    else if p.source.status == Resolved && p.target.status == Resolved
    then RecordPair(g, cfg, key.relay, key.vni, p.source.node, p.target.node, at, o)
    else ReconcileScope(g, cfg, key, at, o)
  }

  lemma SettledIsInferred(g: Graph, cfg: Config, key: ScopeKey, p: Placed, at: Time, o: Oracle)
    returns (pairs: seq<(NodeId, NodeId)>)
    ensures InferredFrom(g, SettlePair(g, cfg, key, p, at, o).graph, pairs, o)
  {
    if p.source.node == p.target.node {
      pairs := [];
    } else if p.tangled {
      pairs := o.inferred(g);
    } else if p.source.status == Resolved && p.target.status == Resolved {
      pairs := RecordedIsInferred(g, cfg, key.relay, key.vni, p.source.node, p.target.node, at, o);
    } else {
      pairs := ReconciledIsInferred(g, cfg, key, at, o);
    }
  }

  datatype SessionResult = SessionResult(work: Work, source: NodeId, target: NodeId)

  /** The ends as the session has them once pairs are settled. */
  function EndsOf(r: Reconciled, key: ScopeKey, id: Text, p: Placed, o: Oracle): (NodeId, NodeId) {
    if r.tangled then o.inferredEnds(r.graph)
    else if HasSession(r.graph, key, id) then (SessionOf(r.graph, key, id).source, SessionOf(r.graph, key, id).target)
    else (p.source.node, p.target.node)
  }

  /** resolveRelaySessionLocked. */
  function ResolveSession(w: Work, cfg: Config, relay: NodeId, s: SessionReport, at: Time, o: Oracle): SessionResult {
    var key := ScopeKey(relay, s.vni);
    var placed := PlaceSession(w, cfg, relay, s, at, o);
    var settled := SettlePair(placed.work.graph, cfg, key, placed, at, o);
    var ends := EndsOf(settled, key, s.id, placed, o);
    SessionResult(
      placed.work.(graph := settled.graph, canonical := placed.work.canonical || settled.changed), ends.0, ends.1)
  }

  predicate EquivalentPath(left: Path, right: Path) {
    && left.kind == right.kind
    && match left.kind
       case Direct => true
       case UnknownPath => true
       case Derp => left.region == EMPTY || right.region == EMPTY || left.region == right.region
       case PeerRelay => left.stable == EMPTY || right.stable == EMPTY || left.stable == right.stable
       case NoKind => false
  }

  const RELAY_SESSION: Text := 4

  function RelaySample(
    g: Graph, key: EdgeKey, relay: NodeId, s: SessionReport, aToB: int, bToA: int, collectedAt: Time,
    at: Time): Observation
  {
    var path := Path(PeerRelay, NoEndpoint, EMPTY, s.relay.stable, EMPTY, RELAY_SESSION, Some(s.vni));
    var rates := (PerSecond(aToB, s.milliseconds), PerSecond(bToA, s.milliseconds));
    var total :=
      if key in g.edges && relay in g.edges[key].observations
         && g.edges[key].observations[relay].receivedAt == at
         && EquivalentPath(g.edges[key].observations[relay].path, path)
      then (rates.0 + g.edges[key].observations[relay].aToB, rates.1 + g.edges[key].observations[relay].bToA)
      else rates;
    Observation(relay, path, None, Observed, EMPTY, collectedAt, at, NEVER, 0.0, 0.0, total.0, total.1)
  }

  /** The relay itself: resolved, touched and claimed, as every relay update does. */
  function RelayArrive(w: Work, cfg: Config, report: Report, s: SessionReport, at: Time, o: Oracle): (Work, NodeId) {
    var (resolved, r) := ResolveIn(w, cfg, s.relay, at, o);
    var collected := TouchCollected(resolved.graph, r.node, report.collectedAt);
    var touched := TouchObserver(collected, r.node, report.collectedAt, at);
    (resolved.(graph := Claim(touched, report.reporter, r.node)), r.node)
  }

  /** The traffic of one session on the edge between its two clients. */
  function RelayTraffic(
    w: Work, cfg: Config, report: Report, relay: NodeId, a: NodeId, b: NodeId, s: SessionReport, at: Time): Work
  {
    var key := EdgeOf(a, b);
    var seen := TouchEdge(w.(graph := TouchPeer(TouchPeer(w.graph, a, at), b, at)), key);
    var (aToB, bToA) := if a == key.source then (s.forward, s.backward) else (s.backward, s.forward);
    var put := PutObservation(
      seen.graph, key, RelaySample(seen.graph, key, relay, s, aToB, bToA, report.collectedAt, at), at);
    seen.(graph := MarkSystem(put, cfg, key, a, b),
          traffic := seen.traffic + [Traffic(key, relay, aToB, bToA, at)])
  }

  /** What is left to do once a session's two ends are known. */
  function RelaySettle(session: SessionResult, cfg: Config, report: Report, relay: NodeId, s: SessionReport,
      at: Time): Work
  {
    var a, b := session.source, session.target;
    var known := session.work.(graph :=
      TouchCollected(TouchCollected(session.work.graph, a, report.collectedAt), b, report.collectedAt));
    if a == b then known else RelayTraffic(known, cfg, report, relay, a, b, s, at)
  }

  function RelayOne(w: Work, cfg: Config, report: Report, s: SessionReport, at: Time, o: Oracle): Work {
    var (claimed, relay) := RelayArrive(w, cfg, report, s, at, o);
    RelaySettle(ResolveSession(claimed, cfg, relay, s, at, o), cfg, report, relay, s, at)
  }

  function RelayAll(w: Work, cfg: Config, report: Report, sessions: seq<SessionReport>, at: Time, o: Oracle): Work {
    if |sessions| == 0 then w
    else RelayOne(RelayAll(w, cfg, report, sessions[..|sessions| - 1], at, o), cfg, report,
                  sessions[|sessions| - 1], at, o)
  }

  // ---------------------------------------------------------------------------------------------
  // The whole report
  // ---------------------------------------------------------------------------------------------

  ghost function Learn(edge: Edge, cfg: Config, at: Time): Edge {
    edge.(lastKnown := Some(EvidenceAt(edge, cfg, at)))
  }

  ghost function Relearn(g: Graph, touched: set<EdgeKey>, cfg: Config, at: Time): Graph {
    g.(edges := map k | k in g.edges ::
      if k in touched then Learn(g.edges[k], cfg, at) else g.edges[k])
  }

  /** The closing loop: re-evaluate each touched edge, log a transition where its evidence changed. A
      touched edge that a merge renamed is a nil dereference, so there is no result. */
  ghost function Finish(w: Work, cfg: Config, report: Report, at: Time): Option<Applied> {
    if !(w.touched.Keys <= w.graph.edges.Keys) then None
    else
      var transitions := map k | k in w.touched && Changes(w.touched[k], EvidenceAt(w.graph.edges[k], cfg, at))
        :: EvidenceAt(w.graph.edges[k], cfg, at);
      var learned := Relearn(w.graph, w.touched.Keys, cfg, at);
      var remembered :=
        if report.reporter in learned.reporters
        then learned.(reporters := learned.reporters[report.reporter := learned.reporters[report.reporter].(
          memory := Remember(learned.reporters[report.reporter].memory, report.sequence, report.id, at))])
        else learned;
      Some(Applied(remembered, true, w.resync, true, w.canonical, w.checkpoint, w.traffic, transitions))
  }

  function OwnsAll(g: Graph, cfg: Config, reporter: ReporterId, obs: seq<ObserverReport>, at: Time): bool {
    if obs == [] then true
    else
      var found := Lookup(g, cfg, obs[0].observer, at);
      && found.Some?
      && found.value in g.observers
      && g.observers[found.value].owner == Some(reporter)
      && OwnsAll(g, cfg, reporter, obs[1..], at)
  }

  function Enrol(g: Graph, reporter: ReporterId): Graph {
    if reporter in g.reporters then g else g.(reporters := g.reporters[reporter := Reporter(NO_MEMORY, {})])
  }

  function Unchanged(g: Graph, accepted: bool, resync: bool): Applied {
    Applied(g, accepted, resync, false, false, false, [], map[])
  }

  function Work0(g: Graph, resync: bool): Work {
    Work(g, map[], [], false, false, resync)
  }

  /** The loops of an admitted report, by kind. */
  function Process(w: Work, cfg: Config, report: Report, at: Time, o: Oracle): Option<Work> {
    if report.kind == Withdrawal then Some(WithdrawAll(w, cfg, report, report.observers, at))
    else if report.kind == RelayUpdate then Some(RelayAll(w, cfg, report, report.sessions, at, o))
    else ObserveReports(w, cfg, report, report.observers, at, o)
  }

  function VerdictOn(g: Graph, cfg: Config, report: Report, at: Time): Verdict
    requires report.reporter in g.reporters
  {
    Judge(g.reporters[report.reporter].memory, report.kind, report.sequence, report.id,
          OwnsAll(g, cfg, report.reporter, report.observers, at))
  }

  ghost function Carry(w: Work, cfg: Config, report: Report, at: Time, o: Oracle): Option<Applied> {
    var done :- Process(w, cfg, report, at, o);
    Finish(done, cfg, report, at)
  }

  /** The evidence that the closing loop finds for an edge, if the report touched it. */
  ghost function Evaluated(g: Graph, cfg: Config, report: Report, at: Time, o: Oracle, k: EdgeKey): Option<Evidence> {
    var enrolled := Enrol(Prune(g, cfg, at), report.reporter);
    match VerdictOn(enrolled, cfg, report, at)
    case Admit(resync) =>
      var done := Process(Work0(enrolled, resync), cfg, report, at, o);
      if done.Some? then EvidenceFound(done.value, cfg, at, k) else None
    case _ => None
  }

  ghost function EvidenceFound(done: Work, cfg: Config, at: Time, k: EdgeKey): Option<Evidence> {
    if k in done.touched && k in done.graph.edges then Some(EvidenceAt(done.graph.edges[k], cfg, at)) else None
  }

  ghost function Apply(g: Graph, cfg: Config, report: Report, at: Time, o: Oracle): Option<Applied> {
    var pruned := Prune(g, cfg, at);
    var enrolled := Enrol(pruned, report.reporter);
    match VerdictOn(enrolled, cfg, report, at)
    case Duplicate => Some(Unchanged(enrolled, true, false))
    case Stale => Some(Unchanged(enrolled, false, false))
    case NotOwner => Some(Unchanged(pruned, false, true))
    case Admit(resync) => Carry(Work0(enrolled, resync), cfg, report, at, o)
  }
}
