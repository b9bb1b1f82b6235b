/** The canonical graph as a value, and what each aggregator operation does to it
    (internal/aggregate/aggregator.go). Class Aggregator carries these out on its state field.

    Two things are not decided by the code: which fresh node ID an allocation gets, and in which order
    a Go map is walked. Both are answered by an Oracle, so a statement about every oracle is a statement
    about every random ID and every map order. */
module Canonical {
  import opened Names
  import opened Evidence
  import opened Admission

  // ---------------------------------------------------------------------------------------------
  // Data
  // ---------------------------------------------------------------------------------------------

  datatype IdentityStatus = Anonymous | Partial | Conflicted | Resolved

  datatype NodeIdentity = NodeIdentity(
    stable: Text, nodeId: Text, nodeKey: Text, disco: Text, addresses: seq<Text>)

  const NO_IDENTITY := NodeIdentity(EMPTY, EMPTY, EMPTY, EMPTY, [])

  datatype Alias =
    | StableAlias(text: Text)
    | NodeIdAlias(text: Text)
    | NodeKeyAlias(text: Text)
    | DiscoAlias(text: Text)
    | AddressAlias(text: Text)

  datatype Node = Node(
    identity: NodeIdentity,
    status: IdentityStatus,
    observable: bool,
    lastEvidence: Time,
    lastReport: Time,
    lastCollected: Time,
    identityCollectedAt: Time)

  datatype Reporter = Reporter(memory: Memory, observers: set<NodeId>)

  datatype Observer = Observer(
    owner: Option<ReporterId>, generation: Text, membership: set<NodeId>, withdrawnAt: Time)

  /** An edge ID: the smaller end first. */
  datatype EdgeKey = EdgeKey(source: NodeId, target: NodeId)

  datatype Observation = Observation(
    observer: NodeId,
    path: Path,
    fallback: Option<Path>,
    evidence: EvidenceKind,
    rule: Text,
    collectedAt: Time,
    receivedAt: Time,
    withdrawnAt: Time,
    tx: real, rx: real, aToB: real, bToA: real)

  datatype Edge = Edge(
    source: NodeId,
    target: NodeId,
    system: bool,
    lastActive: Time,
    lastKnown: Option<Evidence>,
    observations: map<NodeId, Observation>)

  datatype ScopeKey = ScopeKey(relay: NodeId, vni: int)

  datatype RelaySession = RelaySession(
    clients: map<Text, NodeId>,
    sourceClient: Text, targetClient: Text,
    source: NodeId, target: NodeId,
    sourceStatus: IdentityStatus, targetStatus: IdentityStatus,
    lastSeen: Time)

  datatype RelayScope = RelayScope(
    relay: NodeId,
    vni: int,
    pair: Option<EdgeKey>,
    pairAt: Time,
    conflictAt: Time,
    lastSeen: Time,
    sessions: map<Text, RelaySession>)

  datatype Device = Device(stable: Text, nodeKey: Text)

  datatype Directory = Directory(
    devices: seq<Device>, canonical: map<Text, NodeId>, conflicts: map<NodeId, set<Text>>)

  datatype Graph = Graph(
    reporters: map<ReporterId, Reporter>,
    observers: map<NodeId, Observer>,
    nodes: map<NodeId, Node>,
    aliases: map<Alias, NodeId>,
    aliasSeen: map<Alias, Time>,
    redirects: map<NodeId, NodeId>,
    edges: map<EdgeKey, Edge>,
    scopes: map<ScopeKey, RelayScope>,
    directory: Option<Directory>)

  const EMPTY_GRAPH := Graph(map[], map[], map[], map[], map[], map[], map[], map[], None)

  datatype Config = Config(heartbeat: int, controls: set<Text>) {
    function EvidenceWindow(): int { 2 * heartbeat }
    function NodeWindow(): int { 4 * heartbeat }
  }

  /** `newId` names a new node; `edgeOrder`, `observerOrder`, `scopeOrder` and `sessionOrder` walk the maps. The
      rest is for a relay scope that merges away while it is worked on: what was inferred from the copy in
      hand, what scopes that left behind, and which ends were read off it. */
  datatype Oracle = Oracle(
    newId: Graph -> NodeId,
    edgeOrder: map<EdgeKey, Edge> -> seq<EdgeKey>,
    observerOrder: Edge -> seq<NodeId>,
    scopeOrder: map<ScopeKey, RelayScope> -> seq<ScopeKey>,
    sessionOrder: map<Text, RelaySession> -> seq<Text>,
    inferred: Graph -> seq<(NodeId, NodeId)>,
    inferredScopes: Graph -> map<ScopeKey, RelayScope>,
    inferredEnds: Graph -> (NodeId, NodeId))

  /** Every node ID the graph has ever handed out. */
  function Known(g: Graph): set<NodeId> {
    g.nodes.Keys + g.redirects.Keys
  }

  /** Where a node's state lives now: itself, or the node that absorbed it. */
  function Root(g: Graph, node: NodeId): NodeId {
    RootIn(g.redirects, node)
  }

  function RootIn(redirects: map<NodeId, NodeId>, node: NodeId): NodeId {
    if node in redirects then redirects[node] else node
  }

  ghost predicate Enumerates<T(!new)>(order: seq<T>, keys: set<T>) {
    && (forall i, j | 0 <= i < j < |order| :: order[i] != order[j])
    && (forall x :: x in order <==> x in keys)
  }

  ghost predicate Fair(o: Oracle) {
    && (forall g: Graph :: o.newId(g) !in Known(g))
    && (forall edges: map<EdgeKey, Edge> :: Enumerates(o.edgeOrder(edges), edges.Keys))
    && (forall e: Edge :: Enumerates(o.observerOrder(e), e.observations.Keys))
    && (forall scopes: map<ScopeKey, RelayScope> :: Enumerates(o.scopeOrder(scopes), scopes.Keys))
    && (forall sessions: map<Text, RelaySession> :: Enumerates(o.sessionOrder(sessions), sessions.Keys))
  }

  // ---------------------------------------------------------------------------------------------
  // Identities and aliases
  // ---------------------------------------------------------------------------------------------

  predicate Named(text: Text) {
    text != EMPTY && text != ZERO
  }

  function StrongAliases(i: NodeIdentity): seq<Alias> {
    (if Named(i.stable) then [StableAlias(i.stable)] else []) +
    (if Named(i.nodeId) then [NodeIdAlias(i.nodeId)] else []) +
    (if Named(i.nodeKey) then [NodeKeyAlias(i.nodeKey)] else []) +
    (if Named(i.disco) then [DiscoAlias(i.disco)] else [])
  }

  function AddressAliases(i: NodeIdentity): (aliases: seq<Alias>)
    ensures forall a | a in aliases :: a.AddressAlias?
  {
    AddressAliasesOf(i.addresses)
  }

  function AddressAliasesOf(addresses: seq<Text>): (aliases: seq<Alias>)
    ensures forall a | a in aliases :: a.AddressAlias? && a.text != EMPTY
  {
    if addresses == [] then []
    else (if addresses[0] == EMPTY then [] else [AddressAlias(addresses[0])]) + AddressAliasesOf(addresses[1..])
  }

  predicate HasIdentity(i: NodeIdentity) {
    i.stable != EMPTY || i.nodeId != EMPTY || i.nodeKey != EMPTY || i.disco != EMPTY || i.addresses != []
  }

  function StatusOf(i: NodeIdentity): IdentityStatus {
    if StrongAliases(i) != [] then Resolved else if HasIdentity(i) then Partial else Anonymous
  }

  function StatusRank(status: IdentityStatus): int {
    match status
    case Anonymous => 1
    case Partial => 2
    case Conflicted => 3
    case Resolved => 4
  }

  function MergeStatus(left: IdentityStatus, right: IdentityStatus): IdentityStatus {
    if StatusRank(right) > StatusRank(left) then right else left
  }

  function MergeIdentity(current: NodeIdentity, update: NodeIdentity): NodeIdentity {
    NodeIdentity(
      if update.stable != EMPTY then update.stable else current.stable,
      if Named(update.nodeId) then update.nodeId else current.nodeId,
      if update.nodeKey != EMPTY then update.nodeKey else current.nodeKey,
      if update.disco != EMPTY then update.disco else current.disco,
      if update.addresses != [] then update.addresses else current.addresses)
  }

  /** The node a node-key alias names, when that node already carries another stable ID. */
  function ConflictingNode(g: Graph, stable: Text, alias: Alias): Option<NodeId> {
    if alias !in g.aliases || g.aliases[alias] !in g.nodes then None
    else
      var existing := g.nodes[g.aliases[alias]].identity.stable;
      if existing != EMPTY && existing != stable then Some(g.aliases[alias]) else None
  }

  function WithoutConflict(g: Graph, i: NodeIdentity): NodeIdentity {
    if i.stable != EMPTY && i.nodeKey != EMPTY && ConflictingNode(g, i.stable, NodeKeyAlias(i.nodeKey)).Some?
    then i.(nodeKey := EMPTY)
    else i
  }

  function AliasTime(g: Graph, alias: Alias, node: NodeId): Time {
    var seen := if alias in g.aliasSeen then g.aliasSeen[alias] else NEVER;
    if seen == NEVER && node in g.nodes then g.nodes[node].lastEvidence else seen
  }

  predicate AddressUsable(g: Graph, cfg: Config, i: NodeIdentity, alias: Alias, node: NodeId, at: Time) {
    var seen := AliasTime(g, alias, node);
    && seen != NEVER
    && at - seen <= cfg.NodeWindow()
    && (node !in g.nodes || i.stable == EMPTY || g.nodes[node].identity.stable == EMPTY
        || i.stable == g.nodes[node].identity.stable)
  }

  /** The nodes that an identity's aliases name. */
  function Matches(g: Graph, cfg: Config, i: NodeIdentity, at: Time): set<NodeId> {
    (set a | a in StrongAliases(i) && a in g.aliases :: g.aliases[a]) +
    (set a | a in AddressAliases(i) && a in g.aliases && AddressUsable(g, cfg, i, a, g.aliases[a], at)
       :: g.aliases[a])
  }

  function FirstAlias(g: Graph, aliases: seq<Alias>): Option<NodeId> {
    if aliases == [] then None
    else if aliases[0] in g.aliases then Some(g.aliases[aliases[0]])
    else FirstAlias(g, aliases[1..])
  }

  function FirstUsable(g: Graph, cfg: Config, i: NodeIdentity, aliases: seq<Alias>, at: Time): Option<NodeId> {
    if aliases == [] then None
    else if aliases[0] in g.aliases && AddressUsable(g, cfg, i, aliases[0], g.aliases[aliases[0]], at)
    then Some(g.aliases[aliases[0]])
    else FirstUsable(g, cfg, i, aliases[1..], at)
  }

  /** lookupIdentityLocked: the first strong alias that names a node, else the first usable address. */
  function Lookup(g: Graph, cfg: Config, i: NodeIdentity, at: Time): Option<NodeId> {
    var strong := FirstAlias(g, StrongAliases(i));
    if strong.Some? then strong else FirstUsable(g, cfg, i, AddressAliases(i), at)
  }

  // ---------------------------------------------------------------------------------------------
  // Merging two nodes
  // ---------------------------------------------------------------------------------------------

  function Repoint(id: NodeId, keep: NodeId, remove: NodeId): NodeId {
    if id == remove then keep else id
  }

  function EdgeOf(a: NodeId, b: NodeId): EdgeKey {
    if a > b then EdgeKey(b, a) else EdgeKey(a, b)
  }

  function MergeNode(keep: Node, remove: Node): Node {
    var newer := remove.lastReport > keep.lastReport;
    Node(
      MergeIdentity(remove.identity, keep.identity),
      MergeStatus(keep.status, remove.status),
      keep.observable || remove.observable,
      Later(remove.lastEvidence, keep.lastEvidence),
      if newer then remove.lastReport else keep.lastReport,
      if newer then remove.lastCollected else keep.lastCollected,
      keep.identityCollectedAt)
  }

  /** What the surviving node's observer state becomes, if either node had one. */
  function MergedObserver(observers: map<NodeId, Observer>, keep: NodeId, remove: NodeId, removeIsNewer: bool)
    : Option<Observer>
  {
    if keep !in observers then
      if remove in observers then Some(observers[remove]) else None
    else if remove !in observers then Some(observers[keep])
    else
      var k, r := observers[keep], observers[remove];
      var members := k.membership + r.membership;
      if removeIsNewer || k.owner.None?
      then Some(Observer(r.owner, r.generation, members, r.withdrawnAt))
      else Some(k.(membership := members))
  }

  function RepointMembers(observer: Observer, keep: NodeId, remove: NodeId): Observer {
    if remove in observer.membership
    then observer.(membership := observer.membership - {remove} + {keep})
    else observer
  }

  function MergeObservers(observers: map<NodeId, Observer>, merged: Option<Observer>, keep: NodeId, remove: NodeId)
    : map<NodeId, Observer>
  {
    var kept := if merged.Some? then (observers - {remove})[keep := merged.value] else observers - {remove};
    map n | n in kept :: RepointMembers(kept[n], keep, remove)
  }

  function MergeOwners(reporters: map<ReporterId, Reporter>, merged: Option<Observer>, keep: NodeId, remove: NodeId)
    : map<ReporterId, Reporter>
  {
    map r | r in reporters ::
      reporters[r].(observers :=
        reporters[r].observers - {keep, remove} +
        (if merged.Some? && merged.value.owner == Some(r) then {keep} else {}))
  }

  /** One observation carried over to a rebuilt edge: the later receipt wins, a tie leaves what is there. */
  function AddObservation(
    into: map<NodeId, Observation>, observer: NodeId, observation: Observation, keep: NodeId, remove: NodeId)
    : map<NodeId, Observation>
  {
    var id := Repoint(observer, keep, remove);
    var carried := if observer == remove then observation.(observer := keep) else observation;
    if id !in into || carried.receivedAt > into[id].receivedAt then into[id := carried] else into
  }

  function AddObservations(
    into: map<NodeId, Observation>, from: map<NodeId, Observation>, order: seq<NodeId>, keep: NodeId, remove: NodeId)
    : map<NodeId, Observation>
  {
    if order == [] then into
    else
      var before := AddObservations(into, from, order[..|order| - 1], keep, remove);
      var last := order[|order| - 1];
      if last in from then AddObservation(before, last, from[last], keep, remove) else before
  }

  function RepointEvidence(e: Evidence, keep: NodeId, remove: NodeId): Evidence {
    e.(directions := seq(|e.directions|, i requires 0 <= i < |e.directions| =>
      e.directions[i].(
        from := Repoint(e.directions[i].from, keep, remove),
        to := Repoint(e.directions[i].to, keep, remove),
        observer := Repoint(e.directions[i].observer, keep, remove))))
  }

  /** What an old edge adds to the rebuilt edge that it maps to. */
  function FoldEdge(current: Edge, edge: Edge, order: seq<NodeId>, keep: NodeId, remove: NodeId): Edge {
    var newer := edge.lastActive > current.lastActive;
    Edge(
      current.source, current.target,
      current.system || edge.system,
      if newer then edge.lastActive else current.lastActive,
      if !newer then current.lastKnown
      else if edge.lastKnown.Some? then Some(RepointEvidence(edge.lastKnown.value, keep, remove))
      else None,
      AddObservations(current.observations, edge.observations, order, keep, remove))
  }

  function EdgeIn(edges: map<EdgeKey, Edge>, key: EdgeKey): Edge {
    if key in edges then edges[key] else Edge(key.source, key.target, false, NEVER, None, map[])
  }

  /** One old edge folded into the rebuilt ones; an edge between the two merged nodes disappears. */
  function AddEdge(rebuilt: map<EdgeKey, Edge>, edge: Edge, keep: NodeId, remove: NodeId, o: Oracle)
    : map<EdgeKey, Edge>
  {
    var source, target := Repoint(edge.source, keep, remove), Repoint(edge.target, keep, remove);
    if source == target then rebuilt
    else
      var key := EdgeOf(source, target);
      rebuilt[key := FoldEdge(EdgeIn(rebuilt, key), edge, o.observerOrder(edge), keep, remove)]
  }

  function RebuildEdges(edges: map<EdgeKey, Edge>, order: seq<EdgeKey>, keep: NodeId, remove: NodeId, o: Oracle)
    : map<EdgeKey, Edge>
  {
    if order == [] then map[]
    else
      var before := RebuildEdges(edges, order[..|order| - 1], keep, remove, o);
      var last := order[|order| - 1];
      if last in edges then AddEdge(before, edges[last], keep, remove, o) else before
  }

  function RepointSession(s: RelaySession, keep: NodeId, remove: NodeId): RelaySession {
    s.(source := Repoint(s.source, keep, remove),
       target := Repoint(s.target, keep, remove),
       clients := map c | c in s.clients :: Repoint(s.clients[c], keep, remove))
  }

  function RepointScope(s: RelayScope, keep: NodeId, remove: NodeId): RelayScope {
    s.(relay := Repoint(s.relay, keep, remove),
       pair := if s.pair.None? then None
               else Some(EdgeOf(Repoint(s.pair.value.source, keep, remove),
                 Repoint(s.pair.value.target, keep, remove))),
       sessions := map id | id in s.sessions :: RepointSession(s.sessions[id], keep, remove))
  }

  function MergeScopes(keep: RelayScope, update: RelayScope): RelayScope {
    keep.(
      lastSeen := Later(update.lastSeen, keep.lastSeen),
      conflictAt := Later(update.conflictAt, keep.conflictAt),
      pair := if update.pairAt > keep.pairAt then update.pair else keep.pair,
      pairAt := Later(update.pairAt, keep.pairAt),
      sessions := map id | id in keep.sessions.Keys + update.sessions.Keys ::
        if id in update.sessions && (id !in keep.sessions || update.sessions[id].lastSeen > keep.sessions[id].lastSeen)
        then update.sessions[id] else keep.sessions[id])
  }

  function AddScope(rebuilt: map<ScopeKey, RelayScope>, scope: RelayScope, keep: NodeId, remove: NodeId)
    : map<ScopeKey, RelayScope>
  {
    var carried := RepointScope(scope, keep, remove);
    var key := ScopeKey(carried.relay, carried.vni);
    rebuilt[key := if key in rebuilt then MergeScopes(rebuilt[key], carried) else carried]
  }

  function RebuildScopes(scopes: map<ScopeKey, RelayScope>, order: seq<ScopeKey>, keep: NodeId, remove: NodeId)
    : map<ScopeKey, RelayScope>
  {
    if order == [] then map[]
    else
      var before := RebuildScopes(scopes, order[..|order| - 1], keep, remove);
      var last := order[|order| - 1];
      if last in scopes then AddScope(before, scopes[last], keep, remove) else before
  }

  function RepointDirectory(d: Directory, keep: NodeId, remove: NodeId): Directory {
    var moved := if remove in d.conflicts then d.conflicts[remove] else {};
    d.(canonical := map s | s in d.canonical :: Repoint(d.canonical[s], keep, remove),
       conflicts :=
         if moved == {} then d.conflicts
         else (d.conflicts - {remove})[keep := (if keep in d.conflicts then d.conflicts[keep] else {}) + moved])
  }

  function RepointAliases(aliases: map<Alias, NodeId>, keep: NodeId, remove: NodeId): map<Alias, NodeId> {
    map a | a in aliases :: Repoint(aliases[a], keep, remove)
  }

  function RepointRedirects(redirects: map<NodeId, NodeId>, keep: NodeId, remove: NodeId): map<NodeId, NodeId> {
    (map f | f in redirects :: Repoint(redirects[f], keep, remove))[remove := keep]
  }

  /** mergeNodesLocked: `remove` is absorbed into `keep` in every index. */
  function Merge(g: Graph, keep: NodeId, remove: NodeId, o: Oracle): Graph {
    if keep !in g.nodes || remove !in g.nodes || keep == remove then g
    else
      var newer := g.nodes[remove].lastReport > g.nodes[keep].lastReport;
      var merged := MergedObserver(g.observers, keep, remove, newer);
      Graph(
        MergeOwners(g.reporters, merged, keep, remove),
        MergeObservers(g.observers, merged, keep, remove),
        (g.nodes - {remove})[keep := MergeNode(g.nodes[keep], g.nodes[remove])],
        RepointAliases(g.aliases, keep, remove),
        g.aliasSeen,
        RepointRedirects(g.redirects, keep, remove),
        RebuildEdges(g.edges, o.edgeOrder(g.edges), keep, remove, o),
        RebuildScopes(g.scopes, o.scopeOrder(g.scopes), keep, remove),
        if g.directory.None? then None else Some(RepointDirectory(g.directory.value, keep, remove)))
  }

  function MergeAll(g: Graph, keep: NodeId, others: seq<NodeId>, o: Oracle): Graph {
    if others == [] then g
    else Merge(MergeAll(g, keep, others[..|others| - 1], o), keep, others[|others| - 1], o)
  }

  // ---------------------------------------------------------------------------------------------
  // Resolving an identity
  // ---------------------------------------------------------------------------------------------

  predicate IsLeast(id: NodeId, ids: set<NodeId>) {
    id in ids && forall other | other in ids :: id <= other
  }

  lemma LeastExists(ids: set<NodeId>)
    requires ids != {}
    ensures exists id :: IsLeast(id, ids)
  {
    var some :| some in ids;
    var rest := ids - {some};
    assert forall id | id in ids :: id == some || id in rest;
    if rest == {} {
      assert IsLeast(some, ids);
    } else {
      LeastExists(rest);
      var least :| IsLeast(least, rest);
      assert IsLeast(if some < least then some else least, ids);
    }
  }

  function Least(ids: set<NodeId>): (least: NodeId)
    requires ids != {}
    ensures IsLeast(least, ids)
  {
    LeastExists(ids);
    var least :| IsLeast(least, ids);
    least
  }

  function Ascending(ids: set<NodeId>): (sorted: seq<NodeId>)
    ensures forall id :: id in sorted <==> id in ids
    ensures forall i, j | 0 <= i < j < |sorted| :: sorted[i] < sorted[j]
  {
    if ids == {} then [] else [Least(ids)] + Ascending(ids - {Least(ids)})
  }

  datatype Resolution = Resolution(graph: Graph, node: NodeId, created: bool, canonical: bool)

  function NewNode(i: NodeIdentity, status: IdentityStatus, at: Time): Node {
    Node(i, status, false, at, NEVER, NEVER, NEVER)
  }

  function BindAliases(g: Graph, i: NodeIdentity, node: NodeId, at: Time): Graph {
    g.(aliases := g.aliases + (map a | a in StrongAliases(i) + AddressAliases(i) :: node),
       aliasSeen := g.aliasSeen + (map a | a in AddressAliases(i) :: at))
  }

  function AbsorbIdentity(g: Graph, node: NodeId, i: NodeIdentity): Graph {
    if node !in g.nodes then g
    else
      var n := g.nodes[node];
      g.(nodes := g.nodes[node := n.(
        identity := MergeIdentity(n.identity, i),
        status := if StatusOf(i) == Resolved then Resolved else n.status)])
  }

  /** The node that survives: the stable ID's own node if it has one, else the least match. */
  function Survivor(g: Graph, i: NodeIdentity, matches: set<NodeId>): NodeId
    requires matches != {}
  {
    if i.stable != EMPTY && StableAlias(i.stable) in g.aliases then g.aliases[StableAlias(i.stable)]
    else Least(matches)
  }

  function Resolve(g: Graph, cfg: Config, identity: NodeIdentity, at: Time, o: Oracle): Resolution {
    var i := WithoutConflict(g, identity);
    var matches := Matches(g, cfg, i, at);
    if matches == {} then
      var id := o.newId(g);
      var grown := g.(nodes := g.nodes[id := NewNode(i, StatusOf(i), at)]);
      Resolution(BindAliases(grown, i, id, at), id, true, true)
    else
      var keep := Survivor(g, i, matches);
      var others := Ascending(matches - {keep});
      var merged := AbsorbIdentity(MergeAll(g, keep, others, o), keep, i);
      Resolution(BindAliases(merged, i, keep, at), keep, false, others != [])
  }

  // ---------------------------------------------------------------------------------------------
  // Ownership and housekeeping
  // ---------------------------------------------------------------------------------------------

  function Claim(g: Graph, reporter: ReporterId, node: NodeId): Graph {
    var observer := if node in g.observers then g.observers[node] else Observer(None, EMPTY, {}, NEVER);
    var reporters :=
      if observer.owner.Some? && observer.owner.value != reporter && observer.owner.value in g.reporters then
        var previous := observer.owner.value;
        var left := g.reporters[previous].observers - {node};
        if left == {} then g.reporters - {previous}
        else g.reporters[previous := g.reporters[previous].(observers := left)]
      else g.reporters;
    g.(observers := g.observers[node := observer.(owner := Some(reporter), withdrawnAt := NEVER)],
       reporters :=
         if reporter in reporters
         then reporters[reporter := reporters[reporter].(observers := reporters[reporter].observers + {node})]
         else reporters)
  }

  function WithdrawObservation(edge: Edge, node: NodeId, at: Time): Edge {
    if node in edge.observations
    then edge.(observations := edge.observations[node := edge.observations[node].(withdrawnAt := at)])
    else edge
  }

  function Withdraw(g: Graph, reporter: ReporterId, node: NodeId, at: Time): Graph {
    if node !in g.observers || g.observers[node].owner != Some(reporter) || reporter !in g.reporters then g
    else g.(
      observers := g.observers[node := g.observers[node].(owner := None, withdrawnAt := at)],
      reporters := g.reporters[reporter :=
        g.reporters[reporter].(observers := g.reporters[reporter].observers - {node})],
      edges := map k | k in g.edges :: WithdrawObservation(g.edges[k], node, at))
  }

  predicate ReporterExpired(g: Graph, cfg: Config, r: Reporter, now: Time) {
    r.observers == {} && (r.memory.lastAcceptedAt == NEVER || now - r.memory.lastAcceptedAt > cfg.EvidenceWindow())
  }

  predicate AddressExpired(g: Graph, cfg: Config, alias: Alias, now: Time) {
    && alias.AddressAlias?
    && alias in g.aliases
    && (AliasTime(g, alias, g.aliases[alias]) == NEVER
        || now - AliasTime(g, alias, g.aliases[alias]) > cfg.NodeWindow())
  }

  function WithoutAddresses(addresses: seq<Text>, dropped: set<Text>): seq<Text> {
    if addresses == [] then []
    else (if addresses[0] in dropped then [] else [addresses[0]]) + WithoutAddresses(addresses[1..], dropped)
  }

  function ExpiredAddresses(g: Graph, cfg: Config, node: NodeId, now: Time): set<Text> {
    set a | a in g.aliases && AddressExpired(g, cfg, a, now) && g.aliases[a] == node :: a.text
  }

  function PruneScope(s: RelayScope, cfg: Config, now: Time): RelayScope {
    s.(conflictAt := if s.conflictAt != NEVER && now - s.conflictAt > cfg.EvidenceWindow() then NEVER else s.conflictAt,
       sessions := map id | id in s.sessions &&
         !(s.sessions[id].lastSeen == NEVER || now - s.sessions[id].lastSeen > cfg.NodeWindow()) :: s.sessions[id])
  }

  predicate ScopeExpired(s: RelayScope, cfg: Config, now: Time) {
    s.lastSeen == NEVER || now - s.lastSeen > cfg.NodeWindow()
  }

  function DropAddresses(n: Node, dropped: set<Text>): Node {
    n.(identity := n.identity.(addresses := WithoutAddresses(n.identity.addresses, dropped)))
  }

  function LiveReporters(g: Graph, cfg: Config, now: Time): map<ReporterId, Reporter> {
    map r | r in g.reporters && !ReporterExpired(g, cfg, g.reporters[r], now) :: g.reporters[r]
  }

  function LiveAliases(g: Graph, cfg: Config, now: Time): map<Alias, NodeId> {
    map a | a in g.aliases && !AddressExpired(g, cfg, a, now) :: g.aliases[a]
  }

  function LiveSeen(g: Graph, cfg: Config, now: Time): map<Alias, Time> {
    map a | a in g.aliasSeen && !AddressExpired(g, cfg, a, now) :: g.aliasSeen[a]
  }

  function WithLiveAddresses(g: Graph, cfg: Config, now: Time): map<NodeId, Node> {
    map n | n in g.nodes :: DropAddresses(g.nodes[n], ExpiredAddresses(g, cfg, n, now))
  }

  function LiveScopes(g: Graph, cfg: Config, now: Time): map<ScopeKey, RelayScope> {
    map k | k in g.scopes && !ScopeExpired(g.scopes[k], cfg, now) :: PruneScope(g.scopes[k], cfg, now)
  }

  /** pruneIndexesLocked: reporters that own nothing, addresses and relay scopes all expire. */
  function Prune(g: Graph, cfg: Config, now: Time): Graph {
    g.(reporters := LiveReporters(g, cfg, now),
       aliases := LiveAliases(g, cfg, now),
       aliasSeen := LiveSeen(g, cfg, now),
       nodes := WithLiveAddresses(g, cfg, now),
       scopes := LiveScopes(g, cfg, now))
  }

  function TouchCollected(g: Graph, node: NodeId, collectedAt: Time): Graph {
    if node in g.nodes && collectedAt > g.nodes[node].identityCollectedAt
    then g.(nodes := g.nodes[node := g.nodes[node].(identityCollectedAt := collectedAt)])
    else g
  }

  function TouchObserver(g: Graph, node: NodeId, collectedAt: Time, at: Time): Graph {
    if node in g.nodes
    then g.(nodes := g.nodes[node := g.nodes[node].(
      observable := true, lastEvidence := at, lastReport := at, lastCollected := collectedAt)])
    else g
  }

  function TouchPeer(g: Graph, node: NodeId, at: Time): Graph {
    if node in g.nodes then g.(nodes := g.nodes[node := g.nodes[node].(lastEvidence := at)]) else g
  }

  function WithoutObservation(edge: Edge, node: NodeId): Edge {
    edge.(observations := edge.observations - {node})
  }

  /** replaceInventoryLocked: an observer stops speaking for edges to peers it no longer lists. */
  function ReplaceInventory(g: Graph, home: NodeId, node: NodeId, generation: Text, members: set<NodeId>): Graph
    requires home in g.observers
  {
    g.(observers := g.observers[home := g.observers[home].(generation := generation, membership := members)],
       edges := WithoutPeers(g.edges, node, g.observers[home].membership - members))
  }

  /** An observer no longer speaks for its edges to these peers. */
  function WithoutPeers(edges: map<EdgeKey, Edge>, node: NodeId, peers: set<NodeId>): map<EdgeKey, Edge> {
    var gone := set p | p in peers :: EdgeOf(node, p);
    map k | k in edges :: if k in gone then WithoutObservation(edges[k], node) else edges[k]
  }

  predicate IsControl(g: Graph, cfg: Config, node: NodeId) {
    && node in g.nodes
    && exists c | c in cfg.controls ::
         g.nodes[node].identity.stable == c || (StableAlias(c) in g.aliases && g.aliases[StableAlias(c)] == node)
  }

  function MarkSystem(g: Graph, cfg: Config, key: EdgeKey, a: NodeId, b: NodeId): Graph {
    if key in g.edges && (IsControl(g, cfg, a) || IsControl(g, cfg, b))
    then g.(edges := g.edges[key := g.edges[key].(system := true)])
    else g
  }

  function PutObservation(g: Graph, key: EdgeKey, observation: Observation, at: Time): Graph {
    var edge := EdgeIn(g.edges, key);
    g.(edges := g.edges[key := edge.(
      observations := edge.observations[observation.observer := observation],
      lastActive := Later(at, edge.lastActive))])
  }

  function PerSecond(bytes: int, milliseconds: int): real {
    if milliseconds <= 0 then 0.0 else bytes as real * 1000.0 / milliseconds as real
  }

  // ---------------------------------------------------------------------------------------------
  // The evidence of an edge
  // ---------------------------------------------------------------------------------------------

  predicate Fresh(observation: Observation, window: int, now: Time) {
    && now - observation.receivedAt <= window
    && !(observation.withdrawnAt != NEVER && observation.withdrawnAt >= observation.receivedAt)
  }

  function ProvenanceOf(o: Observation): Provenance {
    Provenance(o.observer, o.path, o.fallback, o.evidence, o.rule, o.collectedAt, o.receivedAt)
  }

  function Visible(edge: Edge, cfg: Config, now: Time): map<NodeId, Provenance> {
    map n | n in edge.observations && Fresh(edge.observations[n], cfg.EvidenceWindow(), now)
      :: ProvenanceOf(edge.observations[n])
  }

  ghost function SeenBy(observed: map<NodeId, Provenance>): set<Sighting> {
    set n | n in observed :: Sighting(observed[n].observer, observed[n].path)
  }

  /** snapshotEdgeLocked, as far as the transition log sees it. */
  ghost function EvidenceAt(edge: Edge, cfg: Config, now: Time): Evidence {
    var observed := Visible(edge, cfg, now);
    var seen := SeenBy(observed);
    var previous := if edge.lastKnown.Some? then Some(edge.lastKnown.value.primary) else None;
    if observed == map[] then
      Evidence(if previous.Some? then previous.value else UnknownKey, [], [])
    else
      var n :| n in observed;
      assert Sighting(observed[n].observer, observed[n].path) in seen;
      var primary := PrimaryKey(edge.source, edge.target, previous, seen);
      Evidence(primary, SortedKeys(SupportedKeys(seen) - {primary}),
               Directions(edge.source, edge.target, observed, seen))
  }
}
