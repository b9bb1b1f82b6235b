/** What the topology shows at an instant, and when it will next change by itself
    (internal/aggregate/aggregator.go, snapshotLocked, snapshotEdgeLocked, observerOnlineLocked). */
module Lifecycle {
  import opened Names
  import opened Evidence
  import opened Canonical
  import opened Invariants
  import opened Aggregation

  /** Ten seconds, in nanoseconds. */
  const ACTIVE_WINDOW: int := 10_000_000_000

  // ---------------------------------------------------------------------------------------------
  // The view at an instant
  // ---------------------------------------------------------------------------------------------

  predicate EdgeVisible(edge: Edge, cfg: Config, now: Time) {
    now - edge.lastActive <= cfg.EvidenceWindow()
  }

  predicate Withdrawn(o: Observation) {
    o.withdrawnAt != NEVER && o.withdrawnAt >= o.receivedAt
  }

  /** edgeHasActiveObservationLocked. */
  predicate HasActiveObservation(edge: Edge, now: Time) {
    exists n | n in edge.observations :: now - edge.observations[n].receivedAt <= ACTIVE_WINDOW
      && !Withdrawn(edge.observations[n])
  }

  predicate EdgeActive(edge: Edge, now: Time) {
    now - edge.lastActive <= ACTIVE_WINDOW && HasActiveObservation(edge, now)
  }

  function FreshObservations(edge: Edge, cfg: Config, now: Time): map<NodeId, Observation> {
    map n | n in edge.observations && Fresh(edge.observations[n], cfg.EvidenceWindow(), now) :: edge.observations[n]
  }

  function Current(edge: Edge, now: Time): set<NodeId> {
    set n | n in edge.observations && now - edge.observations[n].receivedAt <= ACTIVE_WINDOW
  }

  predicate IsThirdPartyRelay(edge: Edge, n: NodeId, o: Observation) {
    n != edge.source && n != edge.target && o.path.kind == PeerRelay
  }

  /** No third-party relay observation was received later. Several may tie; map order decides between them. */
  predicate IsLatestRelay(edge: Edge, observed: map<NodeId, Observation>, n: NodeId) {
    && n in observed && IsThirdPartyRelay(edge, n, observed[n])
    && forall m | m in observed && IsThirdPartyRelay(edge, m, observed[m]) ::
      observed[m].receivedAt <= observed[n].receivedAt
  }

  predicate EndHeard(edge: Edge, observed: map<NodeId, Observation>, current: set<NodeId>) {
    (edge.source in observed && edge.source in current) || (edge.target in observed && edge.target in current)
  }

  function EndRates(edge: Edge, observed: map<NodeId, Observation>, current: set<NodeId>): (real, real)
    requires EndHeard(edge, observed, current)
  {
    var here := edge.source in observed && edge.source in current;
    var there := edge.target in observed && edge.target in current;
    if here && there then (observed[edge.source].tx, observed[edge.target].tx)
    else if here then (observed[edge.source].tx, observed[edge.source].rx)
    else (observed[edge.target].rx, observed[edge.target].tx)
  }

  ghost function RelayRates(edge: Edge, observed: map<NodeId, Observation>): set<(real, real)> {
    set n | n in observed && IsLatestRelay(edge, observed, n) :: (observed[n].aToB, observed[n].bToA)
  }

  /** The bytes per second from source to target and back that a snapshot may show: each end speaks for what it
      sends, the other end fills in, and only when neither is heard a relay speaks, whichever of those heard
      last the map yields first. */
  ghost function Rates(edge: Edge, observed: map<NodeId, Observation>, current: set<NodeId>): set<(real, real)> {
    if EndHeard(edge, observed, current) then {EndRates(edge, observed, current)}
    else if exists n :: IsLatestRelay(edge, observed, n) && n in current then RelayRates(edge, observed)
    else {(0.0, 0.0)}
  }

  ghost function RatesAt(edge: Edge, cfg: Config, now: Time): set<(real, real)> {
    Rates(edge, FreshObservations(edge, cfg, now), Current(edge, now))
  }

  /** snapshotEdgeLocked's rates: one of the admissible ones, in whatever order the map yields the observations. */
  method SnapshotRates(edge: Edge, cfg: Config, now: Time) returns (rates: (real, real))
    ensures rates in RatesAt(edge, cfg, now)
  {
    var observed, current := FreshObservations(edge, cfg, now), Current(edge, now);
    var relay: Option<NodeId> := None;
    var todo := observed.Keys;
    while todo != {}
      invariant todo <= observed.Keys
      invariant relay.Some? ==> relay.value in observed && IsThirdPartyRelay(edge, relay.value, observed[relay.value])
      invariant forall m | m in observed && m !in todo && IsThirdPartyRelay(edge, m, observed[m]) ::
        relay.Some? && observed[m].receivedAt <= observed[relay.value].receivedAt
    {
      var n :| n in todo;
      todo := todo - {n};
      if IsThirdPartyRelay(edge, n, observed[n])
         && (relay.None? || observed[n].receivedAt > observed[relay.value].receivedAt) {
        relay := Some(n);
      }
    }
    rates := (0.0, 0.0);
    if EndHeard(edge, observed, current) {
      rates := EndRates(edge, observed, current);
    } else if relay.Some? && now - observed[relay.value].receivedAt <= ACTIVE_WINDOW {
      assert IsLatestRelay(edge, observed, relay.value);
      rates := (observed[relay.value].aToB, observed[relay.value].bToA);
    } else if relay.Some? {
      assert IsLatestRelay(edge, observed, relay.value);
    }
  }

  /** Relays heard at the same latest instant, no end heard, and different rates. */
  ghost predicate Tie(edge: Edge, cfg: Config, now: Time, n: NodeId, m: NodeId) {
    var observed := FreshObservations(edge, cfg, now);
    && IsLatestRelay(edge, observed, n) && IsLatestRelay(edge, observed, m) && n in Current(edge, now)
    && (observed[n].aToB, observed[n].bToA) != (observed[m].aToB, observed[m].bToA)
  }

  /** Two snapshots at one instant can show different rates exactly when no end is heard and relays tie. */
  lemma RatesSplitIff(edge: Edge, cfg: Config, now: Time)
    ensures (exists r, q :: r in RatesAt(edge, cfg, now) && q in RatesAt(edge, cfg, now) && r != q)
       <==> !EndHeard(edge, FreshObservations(edge, cfg, now), Current(edge, now)) && exists n, m ::
         Tie(edge, cfg, now, n, m)
  {
    var observed, current := FreshObservations(edge, cfg, now), Current(edge, now);
    if r, q :| r in RatesAt(edge, cfg, now) && q in RatesAt(edge, cfg, now) && r != q {
      var n :| n in observed && IsLatestRelay(edge, observed, n) && r == (observed[n].aToB, observed[n].bToA);
      var m :| m in observed && IsLatestRelay(edge, observed, m) && q == (observed[m].aToB, observed[m].bToA);
      assert observed[n].receivedAt == observed[m].receivedAt;
      assert Tie(edge, cfg, now, n, m);
    }
    if !EndHeard(edge, observed, current) {
      forall n, m | Tie(edge, cfg, now, n, m)
        ensures exists r, q :: r in RatesAt(edge, cfg, now) && q in RatesAt(edge, cfg, now) && r != q
      {
        assert (observed[n].aToB, observed[n].bToA) in RatesAt(edge, cfg, now);
        assert (observed[m].aToB, observed[m].bToA) in RatesAt(edge, cfg, now);
      }
    }
  }

  datatype EdgeView = EdgeView(
    active: bool, observed: map<NodeId, Observation>, evidence: Evidence, rates: set<(real, real)>, system: bool)

  datatype View = View(edges: map<EdgeKey, EdgeView>, nodes: set<NodeId>, online: set<NodeId>)

  ghost function EdgeViewAt(edge: Edge, cfg: Config, now: Time): EdgeView {
    EdgeView(EdgeActive(edge, now), FreshObservations(edge, cfg, now), EvidenceAt(edge, cfg, now),
             RatesAt(edge, cfg, now), edge.system)
  }

  /** observerOnlineLocked. */
  predicate Online(g: Graph, cfg: Config, n: NodeId, now: Time) {
    && n in g.nodes && g.nodes[n].observable && now - g.nodes[n].lastReport <= cfg.EvidenceWindow()
    && n in g.observers && g.observers[n].owner.Some? && g.observers[n].withdrawnAt == NEVER
  }

  /** markPeerRelayNodesVisibleLocked: a relay that a path names by stable ID. */
  predicate NamesNode(g: Graph, stable: Text, n: NodeId) {
    stable != EMPTY && StableAlias(stable) in g.aliases && g.aliases[StableAlias(stable)] == n
  }

  ghost predicate ShownBy(g: Graph, edge: Edge, cfg: Config, now: Time, n: NodeId) {
    || n == edge.source || n == edge.target
    || (EvidenceAt(edge, cfg, now).primary.RelayStable? && NamesNode(g, EvidenceAt(edge, cfg, now).primary.stable, n))
    || exists m | m in FreshObservations(edge, cfg, now) ::
         edge.observations[m].path.kind == PeerRelay && NamesNode(g, edge.observations[m].path.stable, n)
  }

  ghost predicate OnEdge(g: Graph, cfg: Config, n: NodeId, now: Time) {
    exists k | k in g.edges :: EdgeVisible(g.edges[k], cfg, now) && ShownBy(g, g.edges[k], cfg, now, n)
  }

  ghost predicate NodeVisible(g: Graph, cfg: Config, n: NodeId, now: Time) {
    n in g.nodes && (OnEdge(g, cfg, n, now)
                     || (g.nodes[n].lastEvidence != NEVER && now - g.nodes[n].lastEvidence <= cfg.NodeWindow()))
  }

  ghost function ViewAt(g: Graph, cfg: Config, now: Time): View {
    View(map k | k in g.edges && EdgeVisible(g.edges[k], cfg, now) :: EdgeViewAt(g.edges[k], cfg, now),
         set n | n in g.nodes && NodeVisible(g, cfg, n, now),
         set n | n in g.nodes && Online(g, cfg, n, now))
  }

  // ---------------------------------------------------------------------------------------------
  // Deadlines
  // ---------------------------------------------------------------------------------------------

  /** Every instant at which something may lapse, seen or not. */
  ghost predicate IsDeadline(g: Graph, cfg: Config, t: Time) {
    || (exists k | k in g.edges ::
          t == g.edges[k].lastActive + ACTIVE_WINDOW || t == g.edges[k].lastActive + cfg.EvidenceWindow())
    || (exists k, n | k in g.edges && n in g.edges[k].observations ::
          t == g.edges[k].observations[n].receivedAt + ACTIVE_WINDOW
          || t == g.edges[k].observations[n].receivedAt + cfg.EvidenceWindow())
    || (exists n | n in g.nodes ::
          t == g.nodes[n].lastEvidence + cfg.NodeWindow() || t == g.nodes[n].lastReport + cfg.EvidenceWindow())
  }

  /** The deadlines that a visible edge contributes. */
  ghost predicate EdgeDeadline(edge: Edge, cfg: Config, now: Time, t: Time) {
    && EdgeVisible(edge, cfg, now)
    && (|| (EdgeActive(edge, now) && t == edge.lastActive + ACTIVE_WINDOW)
        || t == edge.lastActive + cfg.EvidenceWindow()
        || exists n | n in edge.observations ::
             t == edge.observations[n].receivedAt + ACTIVE_WINDOW
               || t == edge.observations[n].receivedAt + cfg.EvidenceWindow())
  }

  ghost predicate NodeDeadline(g: Graph, cfg: Config, n: NodeId, now: Time, t: Time) {
    || (NodeVisible(g, cfg, n, now) && t == g.nodes[n].lastEvidence + cfg.NodeWindow())
    || (Online(g, cfg, n, now) && t == g.nodes[n].lastReport + cfg.EvidenceWindow())
  }

  /** What snapshotLocked considers: deadlines still to come of what is shown. */
  ghost predicate Considers(g: Graph, cfg: Config, now: Time, t: Time) {
    && t > now
    && ((exists k | k in g.edges :: EdgeDeadline(g.edges[k], cfg, now, t)) || exists n | n in g.nodes ::
      NodeDeadline(g, cfg, n, now, t))
  }

  ghost predicate IsNextChange(g: Graph, cfg: Config, now: Time, next: Option<Time>) {
    if next.Some? then Considers(g, cfg, now, next.value) && forall t | Considers(g, cfg, now, t) :: next.value <= t
    else forall t :: !Considers(g, cfg, now, t)
  }

  ghost predicate Until(t: Time, next: Option<Time>) {
    next.Some? ==> t <= next.value
  }

  // ---------------------------------------------------------------------------------------------
  // Nothing changes before the next change
  // ---------------------------------------------------------------------------------------------

  lemma EdgeStays(g: Graph, cfg: Config, now: Time, next: Option<Time>, k: EdgeKey, t: Time)
    requires IsNextChange(g, cfg, now, next) && now <= t && Until(t, next) && k in g.edges && !IsDeadline(g, cfg, now)
    ensures EdgeVisible(g.edges[k], cfg, t) <==> EdgeVisible(g.edges[k], cfg, now)
    ensures EdgeVisible(g.edges[k], cfg, now) ==>
      && FreshObservations(g.edges[k], cfg, t) == FreshObservations(g.edges[k], cfg, now)
      && Current(g.edges[k], t) == Current(g.edges[k], now)
      && EdgeActive(g.edges[k], t) == EdgeActive(g.edges[k], now)
  {
    var edge := g.edges[k];
    if EdgeVisible(edge, cfg, now) {
      assert EdgeDeadline(edge, cfg, now, edge.lastActive + cfg.EvidenceWindow());
      assert Considers(g, cfg, now, edge.lastActive + cfg.EvidenceWindow());
      forall n | n in edge.observations
        ensures t - edge.observations[n].receivedAt <= ACTIVE_WINDOW
          <==> now - edge.observations[n].receivedAt <= ACTIVE_WINDOW
        ensures t - edge.observations[n].receivedAt <= cfg.EvidenceWindow()
           <==> now - edge.observations[n].receivedAt <= cfg.EvidenceWindow()
      {
        ObservationStays(g, cfg, now, next, k, n, t);
      }
      if EdgeActive(edge, now) {
        assert EdgeDeadline(edge, cfg, now, edge.lastActive + ACTIVE_WINDOW);
        assert Considers(g, cfg, now, edge.lastActive + ACTIVE_WINDOW);
      }
    }
  }

  lemma ObservationStays(g: Graph, cfg: Config, now: Time, next: Option<Time>, k: EdgeKey, n: NodeId, t: Time)
    requires IsNextChange(g, cfg, now, next) && now <= t && Until(t, next) && !IsDeadline(g, cfg, now)
    requires k in g.edges && EdgeVisible(g.edges[k], cfg, now) && n in g.edges[k].observations
    ensures var o := g.edges[k].observations[n];
      && (t - o.receivedAt <= ACTIVE_WINDOW <==> now - o.receivedAt <= ACTIVE_WINDOW)
      && (t - o.receivedAt <= cfg.EvidenceWindow() <==> now - o.receivedAt <= cfg.EvidenceWindow())
  {
    var o := g.edges[k].observations[n];
    assert EdgeDeadline(g.edges[k], cfg, now, o.receivedAt + ACTIVE_WINDOW);
    assert EdgeDeadline(g.edges[k], cfg, now, o.receivedAt + cfg.EvidenceWindow());
    assert o.receivedAt + ACTIVE_WINDOW > now ==> Considers(g, cfg, now, o.receivedAt + ACTIVE_WINDOW);
    assert o.receivedAt + cfg.EvidenceWindow() > now ==> Considers(g, cfg, now, o.receivedAt + cfg.EvidenceWindow());
    assert now != o.receivedAt + ACTIVE_WINDOW && now != o.receivedAt + cfg.EvidenceWindow();
  }

  lemma EvidenceStays(edge: Edge, cfg: Config, now: Time, t: Time)
    requires FreshObservations(edge, cfg, t) == FreshObservations(edge, cfg, now)
    ensures EvidenceAt(edge, cfg, t) == EvidenceAt(edge, cfg, now)
  {
    forall n | n in edge.observations
      ensures Fresh(edge.observations[n], cfg.EvidenceWindow(), t)
        <==> Fresh(edge.observations[n], cfg.EvidenceWindow(), now)
    {
      assert n in FreshObservations(edge, cfg, t) <==> n in FreshObservations(edge, cfg, now);
    }
    assert Visible(edge, cfg, t) == Visible(edge, cfg, now);
  }

  lemma EdgeViewStays(g: Graph, cfg: Config, now: Time, next: Option<Time>, k: EdgeKey, t: Time)
    requires IsNextChange(g, cfg, now, next) && now <= t && Until(t, next) && k in g.edges && !IsDeadline(g, cfg, now)
    ensures EdgeVisible(g.edges[k], cfg, t) <==> EdgeVisible(g.edges[k], cfg, now)
    ensures EdgeVisible(g.edges[k], cfg, now) ==>
      && EdgeViewAt(g.edges[k], cfg, t) == EdgeViewAt(g.edges[k], cfg, now)
      && forall n :: ShownBy(g, g.edges[k], cfg, t, n) <==> ShownBy(g, g.edges[k], cfg, now, n)
  {
    EdgeStays(g, cfg, now, next, k, t);
    if EdgeVisible(g.edges[k], cfg, now) {
      EvidenceStays(g.edges[k], cfg, now, t);
    }
  }

  lemma NodeStays(g: Graph, cfg: Config, now: Time, next: Option<Time>, n: NodeId, t: Time)
    requires IsNextChange(g, cfg, now, next) && now <= t && Until(t, next) && n in g.nodes && !IsDeadline(g, cfg, now)
    ensures Online(g, cfg, n, t) <==> Online(g, cfg, n, now)
    ensures NodeVisible(g, cfg, n, t) <==> NodeVisible(g, cfg, n, now)
  {
    forall k | k in g.edges
      ensures (EdgeVisible(g.edges[k], cfg, t) && ShownBy(g, g.edges[k], cfg, t, n))
         <==> (EdgeVisible(g.edges[k], cfg, now) && ShownBy(g, g.edges[k], cfg, now, n))
    {
      EdgeViewStays(g, cfg, now, next, k, t);
    }
    if NodeVisible(g, cfg, n, now) {
      var d := g.nodes[n].lastEvidence + cfg.NodeWindow();
      assert NodeDeadline(g, cfg, n, now, d);
      assert d > now ==> Considers(g, cfg, now, d);
      assert d != now;
    }
    if Online(g, cfg, n, now) {
      var d := g.nodes[n].lastReport + cfg.EvidenceWindow();
      assert NodeDeadline(g, cfg, n, now, d);
      assert d > now ==> Considers(g, cfg, now, d);
      assert d != now;
    }
  }

  /** NextChangeAt is sound: unless some deadline falls on this very instant, nothing that the topology shows,
      neither edges and their states, fresh observations, evidence and the rates that may be shown, nor nodes
      and whether they are online, changes before or at the announced instant. */
  lemma NextChangeIsSound(g: Graph, cfg: Config, now: Time, next: Option<Time>, t: Time)
    requires IsNextChange(g, cfg, now, next) && now <= t && Until(t, next) && !IsDeadline(g, cfg, now)
    ensures ViewAt(g, cfg, t) == ViewAt(g, cfg, now)
  {
    forall k | k in g.edges
      ensures EdgeVisible(g.edges[k], cfg, t) <==> EdgeVisible(g.edges[k], cfg, now)
      ensures EdgeVisible(g.edges[k], cfg, now) ==> EdgeViewAt(g.edges[k], cfg, t) == EdgeViewAt(g.edges[k], cfg, now)
    {
      EdgeViewStays(g, cfg, now, next, k, t);
    }
    forall n | n in g.nodes
      ensures Online(g, cfg, n, t) <==> Online(g, cfg, n, now)
      ensures NodeVisible(g, cfg, n, t) <==> NodeVisible(g, cfg, n, now)
    {
      NodeStays(g, cfg, now, next, n, t);
    }
    var there, here := ViewAt(g, cfg, t), ViewAt(g, cfg, now);
    assert there.edges == here.edges;
    assert there.nodes == here.nodes;
    assert there.online == here.online;
  }

  /** A deadline that falls on this very instant is not announced: a visible edge is still visible at every
      later instant up to the next change exactly when its evidence does not run out right now. */
  lemma EdgeStaysIff(g: Graph, cfg: Config, now: Time, next: Option<Time>, k: EdgeKey, t: Time)
    requires IsNextChange(g, cfg, now, next) && now < t && Until(t, next)
    requires k in g.edges && EdgeVisible(g.edges[k], cfg, now)
    ensures EdgeVisible(g.edges[k], cfg, t) <==> now != g.edges[k].lastActive + cfg.EvidenceWindow()
  {
    var d := g.edges[k].lastActive + cfg.EvidenceWindow();
    assert EdgeDeadline(g.edges[k], cfg, now, d);
    assert d > now ==> Considers(g, cfg, now, d);
  }

  // ---------------------------------------------------------------------------------------------
  // The loops
  // ---------------------------------------------------------------------------------------------

  /** The earliest of some deadlines that is still to come. */
  ghost predicate EarliestAfter(deadlines: set<Time>, now: Time, next: Option<Time>) {
    if next.Some? then next.value in deadlines && next.value > now && forall d | d in deadlines && d > now ::
      next.value <= d
    else forall d | d in deadlines :: d <= now
  }

  method Consider(before: Option<Time>, deadline: Time, now: Time, ghost seen: set<Time>)
    returns (next: Option<Time>, ghost deadlines: set<Time>)
    requires EarliestAfter(seen, now, before)
    ensures deadlines == seen + {deadline} && EarliestAfter(deadlines, now, next)
  {
    deadlines := seen + {deadline};
    next := if deadline > now && (before.None? || deadline < before.value) then Some(deadline) else before;
  }

  /** The deadlines of one visible edge. */
  method ConsiderEdge(edge: Edge, cfg: Config, now: Time, before: Option<Time>, ghost seen: set<Time>)
    returns (next: Option<Time>, ghost deadlines: set<Time>)
    requires EarliestAfter(seen, now, before) && EdgeVisible(edge, cfg, now)
    ensures EarliestAfter(deadlines, now, next)
    ensures forall t :: t in deadlines <==> t in seen || EdgeDeadline(edge, cfg, now, t)
  {
    next, deadlines := before, seen;
    if EdgeActive(edge, now) {
      next, deadlines := Consider(next, edge.lastActive + ACTIVE_WINDOW, now, deadlines);
    }
    next, deadlines := Consider(next, edge.lastActive + cfg.EvidenceWindow(), now, deadlines);
    next, deadlines := ConsiderObservations(edge, cfg, now, next, deadlines);
  }

  ghost predicate ObservationDeadline(edge: Edge, cfg: Config, n: NodeId, t: Time)
    requires n in edge.observations
  {
    t == edge.observations[n].receivedAt + ACTIVE_WINDOW || t == edge.observations[n].receivedAt + cfg.EvidenceWindow()
  }

  method ConsiderObservations(edge: Edge, cfg: Config, now: Time, before: Option<Time>, ghost seen: set<Time>)
    returns (next: Option<Time>, ghost deadlines: set<Time>)
    requires EarliestAfter(seen, now, before)
    ensures EarliestAfter(deadlines, now, next)
    ensures forall t :: t in deadlines <==>
      t in seen || exists n | n in edge.observations :: ObservationDeadline(edge, cfg, n, t)
  {
    next, deadlines := before, seen;
    ghost var done: set<NodeId> := {};
    var todo := edge.observations.Keys;
    while todo != {}
      invariant done + todo == edge.observations.Keys && EarliestAfter(deadlines, now, next)
      invariant deadlines == seen + DeadlinesOf(edge, cfg, done)
    {
      var n :| n in todo;
      todo := todo - {n};
      var at := edge.observations[n].receivedAt;
      OneMoreObservation(edge, cfg, seen, done, n, deadlines);
      done := done + {n};
      next, deadlines := Consider(next, at + ACTIVE_WINDOW, now, deadlines);
      next, deadlines := Consider(next, at + cfg.EvidenceWindow(), now, deadlines);
    }
    DeadlinesAre(edge, cfg, done);
  }

  lemma DeadlinesAre(edge: Edge, cfg: Config, all: set<NodeId>)
    requires all == edge.observations.Keys
    ensures forall t :: t in DeadlinesOf(edge, cfg, all) <==>
      exists n | n in edge.observations :: ObservationDeadline(edge, cfg, n, t)
  {
    forall t | t in DeadlinesOf(edge, cfg, all)
      ensures exists n | n in edge.observations :: ObservationDeadline(edge, cfg, n, t)
    {
      var n :| n in all && ObservationDeadline(edge, cfg, n, t);
    }
  }

  ghost function DeadlinesOf(edge: Edge, cfg: Config, among: set<NodeId>): set<Time>
    requires among <= edge.observations.Keys
  {
    (set n | n in among :: edge.observations[n].receivedAt + ACTIVE_WINDOW) +
    (set n | n in among :: edge.observations[n].receivedAt + cfg.EvidenceWindow())
  }

  lemma OneMoreObservation(
    edge: Edge, cfg: Config, seen: set<Time>, among: set<NodeId>, n: NodeId, deadlines: set<Time>)
    requires among <= edge.observations.Keys && n in edge.observations
    requires deadlines == seen + DeadlinesOf(edge, cfg, among)
    ensures var at := edge.observations[n].receivedAt;
      deadlines + {at + ACTIVE_WINDOW} + {at + cfg.EvidenceWindow()} == seen + DeadlinesOf(edge, cfg, among + {n})
  {
  }

  /** The nodes that a visible edge shows: its ends, and the relays its path and its observations name. */
  method ShownByEdge(a: Aggregator, k: EdgeKey, edge: Edge, now: Time) returns (shown: set<NodeId>)
    requires KeyedAs(k, edge)
    ensures forall n :: n in shown <==> ShownBy(a.state, edge, a.cfg, now, n)
  {
    var evidence := a.SnapshotEdge(k, edge, now);
    shown := {edge.source, edge.target};
    if evidence.primary.RelayStable? {
      shown := shown + NodesNamed(a.state, evidence.primary.stable);
    }
    var observed := FreshObservations(edge, a.cfg, now);
    ghost var base := shown;
    var todo := observed.Keys;
    while todo != {}
      invariant todo <= observed.Keys
      invariant forall n :: n in shown <==> n in base || exists m | m in observed && m !in todo ::
        edge.observations[m].path.kind == PeerRelay && NamesNode(a.state, edge.observations[m].path.stable, n)
    {
      var m :| m in todo;
      todo := todo - {m};
      if edge.observations[m].path.kind == PeerRelay {
        shown := shown + NodesNamed(a.state, edge.observations[m].path.stable);
      }
    }
  }

  function NodesNamed(g: Graph, stable: Text): (nodes: set<NodeId>)
    ensures forall n :: n in nodes <==> NamesNode(g, stable, n)
  {
    if stable != EMPTY && StableAlias(stable) in g.aliases then {g.aliases[StableAlias(stable)]} else {}
  }

  /** The first loop of snapshotLocked: visible edges, the nodes they show, and their deadlines. */
  method ConsiderEdges(a: Aggregator, now: Time)
    returns (next: Option<Time>, shown: set<NodeId>, ghost deadlines: set<Time>)
    requires WellKeyed(a.state.edges)
    ensures EarliestAfter(deadlines, now, next)
    ensures forall t :: t in deadlines <==> exists k | k in a.state.edges ::
      EdgeDeadline(a.state.edges[k], a.cfg, now, t)
    ensures forall n :: n in shown <==> OnEdge(a.state, a.cfg, n, now)
  {
    next, shown, deadlines := None, {}, {};
    var edges := a.state.edges;
    var todo := edges.Keys;
    while todo != {}
      invariant todo <= edges.Keys && EarliestAfter(deadlines, now, next)
      invariant forall t :: t in deadlines <==> exists k | k in edges && k !in todo ::
        EdgeDeadline(edges[k], a.cfg, now, t)
      invariant forall n :: n in shown <==> exists k | k in edges && k !in todo ::
        EdgeVisible(edges[k], a.cfg, now) && ShownBy(a.state, edges[k], a.cfg, now, n)
    {
      var k :| k in todo;
      todo := todo - {k};
      if EdgeVisible(edges[k], a.cfg, now) {
        next, deadlines := ConsiderEdge(edges[k], a.cfg, now, next, deadlines);
        var more := ShownByEdge(a, k, edges[k], now);
        shown := shown + more;
      }
    }
  }

  /** snapshotLocked's NextChangeAt: the least deadline still to come of anything that is shown. */
  method NextChangeAt(a: Aggregator, now: Time) returns (next: Option<Time>)
    requires WellKeyed(a.state.edges)
    ensures IsNextChange(a.state, a.cfg, now, next)
  {
    ghost var deadlines;
    var shown;
    next, shown, deadlines := ConsiderEdges(a, now);
    ghost var base := deadlines;
    var nodes := a.state.nodes;
    var todo := nodes.Keys;
    while todo != {}
      invariant todo <= nodes.Keys && EarliestAfter(deadlines, now, next)
      invariant forall t :: t in deadlines <==> t in base || exists n | n in nodes && n !in todo ::
        NodeDeadline(a.state, a.cfg, n, now, t)
    {
      var n :| n in todo;
      todo := todo - {n};
      if n in shown || (nodes[n].lastEvidence != NEVER && now - nodes[n].lastEvidence <= a.cfg.NodeWindow()) {
        next, deadlines := Consider(next, nodes[n].lastEvidence + a.cfg.NodeWindow(), now, deadlines);
      }
      if Online(a.state, a.cfg, n, now) {
        next, deadlines := Consider(next, nodes[n].lastReport + a.cfg.EvidenceWindow(), now, deadlines);
      }
    }
    forall t ensures Considers(a.state, a.cfg, now, t) <==> t in deadlines && t > now { }
  }
}
