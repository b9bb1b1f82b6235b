/** The aggregator as the program runs it (internal/aggregate/aggregator.go): one state record whose maps
    its methods update in place. Each method is proved to carry out the function of the same meaning in
    Canonical and Reports, so what is proved of those functions holds of the running state.

    The `order` that walks a map and the fresh node IDs come from the Oracle handed to each call. */
module Aggregation {
  import opened Names
  import opened Evidence
  import opened Admission
  import opened Canonical
  import opened Pairing
  import opened Reports
  import opened Invariants
  import opened ReportProofs
  import opened DeviceDirectory

  function Unlisted(r: Reporter, keep: NodeId, remove: NodeId): Reporter {
    r.(observers := r.observers - {keep, remove})
  }

  class Aggregator {
    const cfg: Config
    var state: Graph

    constructor (cfg: Config, state: Graph)
      ensures this.cfg == cfg && this.state == state
    {
      this.cfg := cfg;
      this.state := state;
    }

    // -------------------------------------------------------------------------------------------
    // Merging
    // -------------------------------------------------------------------------------------------

    method RepointRedirects(keep: NodeId, remove: NodeId)
      modifies this
      ensures state == old(state).(redirects := Canonical.RepointRedirects(old(state).redirects, keep, remove))
    {
      var redirects := state.redirects;
      var todo := redirects.Keys;
      while todo != {}
        invariant todo <= redirects.Keys == state.redirects.Keys
        invariant redirects == map f | f in state.redirects ::
          if f in todo then state.redirects[f] else Repoint(state.redirects[f], keep, remove)
      {
        var from :| from in todo;
        todo := todo - {from};
        if redirects[from] == remove {
          redirects := redirects[from := keep];
        }
      }
      state := state.(redirects := redirects[remove := keep]);
    }

    method RepointAliases(keep: NodeId, remove: NodeId)
      modifies this
      ensures state == old(state).(aliases := Canonical.RepointAliases(old(state).aliases, keep, remove))
    {
      var aliases := state.aliases;
      var todo := aliases.Keys;
      while todo != {}
        invariant todo <= aliases.Keys == state.aliases.Keys
        invariant aliases == map a | a in state.aliases ::
          if a in todo then state.aliases[a] else Repoint(state.aliases[a], keep, remove)
      {
        var alias :| alias in todo;
        todo := todo - {alias};
        if aliases[alias] == remove {
          aliases := aliases[alias := keep];
        }
      }
      state := state.(aliases := aliases);
    }

    /** Where an observer is told apart by the absorbed node, the surviving one takes its place. */
    method RepointMemberships(kept: map<NodeId, Observer>, keep: NodeId, remove: NodeId)
      returns (observers: map<NodeId, Observer>)
      ensures observers == map n | n in kept :: RepointMembers(kept[n], keep, remove)
    {
      observers := kept;
      var todo := observers.Keys;
      while todo != {}
        invariant todo <= observers.Keys == kept.Keys
        invariant forall n | n in kept :: observers[n] == if n in todo then kept[n]
          else RepointMembers(kept[n], keep, remove)
      {
        var n :| n in todo;
        todo := todo - {n};
        if remove in observers[n].membership {
          observers := observers[n := observers[n].(membership := observers[n].membership - {remove} + {keep})];
        }
      }
    }

    /** Both merged nodes are struck from every listing, then the survivor is listed by its owner. */
    method Relist(listed: map<ReporterId, Reporter>, merged: Option<Observer>, keep: NodeId, remove: NodeId)
      returns (reporters: map<ReporterId, Reporter>)
      ensures reporters == MergeOwners(listed, merged, keep, remove)
    {
      reporters := listed;
      var todo := reporters.Keys;
      while todo != {}
        invariant todo <= reporters.Keys == listed.Keys
        invariant reporters == map r | r in listed ::
          if r in todo then listed[r] else Unlisted(listed[r], keep, remove)
      {
        var r :| r in todo;
        todo := todo - {r};
        assert reporters[r].observers - {keep} - {remove} == reporters[r].observers - {keep, remove};
        reporters := reporters[r := reporters[r].(observers := reporters[r].observers - {keep} - {remove})];
      }
      if merged.Some? && merged.value.owner.Some? && merged.value.owner.value in reporters {
        var owner := merged.value.owner.value;
        reporters := reporters[owner := reporters[owner].(observers := reporters[owner].observers + {keep})];
      }
      forall r | r in listed ensures reporters[r] == MergeOwners(listed, merged, keep, remove)[r] {
        assert reporters[r].observers == MergeOwners(listed, merged, keep, remove)[r].observers;
      }
    }

    /** mergeObserverRuntimeStatesLocked. */
    method MergeObserverStates(keep: NodeId, remove: NodeId, removeIsNewer: bool)
      requires keep != remove
      modifies this
      ensures var merged := MergedObserver(old(state).observers, keep, remove, removeIsNewer);
        state == old(state).(
          observers := MergeObservers(old(state).observers, merged, keep, remove),
          reporters := MergeOwners(old(state).reporters, merged, keep, remove))
    {
      var merged := None;
      if keep !in state.observers {
        if remove in state.observers {
          merged := Some(state.observers[remove]);
        }
      } else {
        var k := state.observers[keep];
        if remove in state.observers {
          var r := state.observers[remove];
          k := k.(membership := k.membership + r.membership);
          if removeIsNewer || k.owner.None? {
            k := k.(owner := r.owner, generation := r.generation, withdrawnAt := r.withdrawnAt);
          }
        }
        merged := Some(k);
      }
      var kept := state.observers - {remove};
      if merged.Some? {
        kept := kept[keep := merged.value];
      }
      var observers := RepointMemberships(kept, keep, remove);
      var reporters := Relist(state.reporters, merged, keep, remove);
      state := state.(observers := observers, reporters := reporters);
    }

    /** One old edge's observations carried over to the edge rebuilt for it. */
    method CarryObservations(current: Edge, edge: Edge, keep: NodeId, remove: NodeId, order: seq<NodeId>)
      returns (observations: map<NodeId, Observation>)
      ensures observations == AddObservations(current.observations, edge.observations, order, keep, remove)
    {
      observations := current.observations;
      for i := 0 to |order|
        invariant observations == AddObservations(current.observations, edge.observations, order[..i], keep, remove)
      {
        assert order[..i + 1][..i] == order[..i];
        var observer := order[i];
        if observer in edge.observations {
          var observation := edge.observations[observer];
          if observer == remove {
            observer := keep;
            observation := observation.(observer := keep);
          }
          if observer !in observations || observation.receivedAt > observations[observer].receivedAt {
            observations := observations[observer := observation];
          }
        }
      }
      WholePrefix(order);
    }

    /** rebuildEdgesLocked. */
    method RebuildEdges(keep: NodeId, remove: NodeId, o: Oracle)
      modifies this
      ensures state == old(state).(
        edges := Canonical.RebuildEdges(old(state).edges, o.edgeOrder(old(state).edges), keep, remove, o))
    {
      var rebuilt: map<EdgeKey, Edge> := map[];
      var order := o.edgeOrder(state.edges);
      for i := 0 to |order|
        invariant state == old(state)
        invariant rebuilt == Canonical.RebuildEdges(state.edges, order[..i], keep, remove, o)
      {
        assert order[..i + 1][..i] == order[..i];
        if order[i] in state.edges {
          var edge := state.edges[order[i]];
          var source := if edge.source == remove then keep else edge.source;
          var target := if edge.target == remove then keep else edge.target;
          if source != target {
            var key := EdgeOf(source, target);
            var current := EdgeIn(rebuilt, key);
            var system := current.system || edge.system;
            var lastActive, lastKnown := current.lastActive, current.lastKnown;
            if edge.lastActive > current.lastActive {
              lastActive := edge.lastActive;
              lastKnown := if edge.lastKnown.Some? then Some(RepointEvidence(edge.lastKnown.value, keep, remove))
                else None;
            }
            var observations := CarryObservations(current, edge, keep, remove, o.observerOrder(edge));
            rebuilt := rebuilt[key := Edge(current.source, current.target, system, lastActive, lastKnown,
              observations)];
          }
        }
      }
      WholePrefix(order);
      state := state.(edges := rebuilt);
    }

    /** replaceRelayNodeReferencesLocked. */
    method RebuildScopes(keep: NodeId, remove: NodeId, o: Oracle)
      modifies this
      ensures state == old(state).(
        scopes := Canonical.RebuildScopes(old(state).scopes, o.scopeOrder(old(state).scopes), keep, remove))
    {
      var rebuilt: map<ScopeKey, RelayScope> := map[];
      var order := o.scopeOrder(state.scopes);
      for i := 0 to |order|
        invariant state == old(state)
        invariant rebuilt == Canonical.RebuildScopes(state.scopes, order[..i], keep, remove)
      {
        assert order[..i + 1][..i] == order[..i];
        if order[i] in state.scopes {
          var scope := RepointScope(state.scopes[order[i]], keep, remove);
          var key := ScopeKey(scope.relay, scope.vni);
          if key in rebuilt {
            rebuilt := rebuilt[key := MergeScopes(rebuilt[key], scope)];
          } else {
            rebuilt := rebuilt[key := scope];
          }
        }
      }
      WholePrefix(order);
      state := state.(scopes := rebuilt);
    }

    /** mergeNodesLocked: one index after another, in the order the program rewrites them. */
    method MergeNodes(keep: NodeId, remove: NodeId, o: Oracle)
      modifies this
      ensures state == Merge(old(state), keep, remove, o)
    {
      if keep !in state.nodes || remove !in state.nodes || keep == remove {
        return;
      }
      var newer := state.nodes[remove].lastReport > state.nodes[keep].lastReport;
      var node := MergeNode(state.nodes[keep], state.nodes[remove]);
      state := state.(nodes := state.nodes[keep := node] - {remove});
      assert state.nodes == (old(state).nodes - {remove})[keep := node];
      RepointRedirects(keep, remove);
      RepointAliases(keep, remove);
      MergeObserverStates(keep, remove, newer);
      RebuildEdges(keep, remove, o);
      RebuildScopes(keep, remove, o);
      if state.directory.Some? {
        state := state.(directory := Some(RepointDirectory(state.directory.value, keep, remove)));
      }
    }

    // -------------------------------------------------------------------------------------------
    // Resolving
    // -------------------------------------------------------------------------------------------

    /** The nodes that the aliases of an identity name. */
    method CollectMatches(i: NodeIdentity, at: Time) returns (matches: set<NodeId>)
      ensures matches == Matches(state, cfg, i, at)
    {
      var strong := NamedBy(StrongAliases(i));
      var addressed := AddressedBy(i, AddressAliases(i), at);
      matches := strong + addressed;
    }

    method NamedBy(aliases: seq<Alias>) returns (named: set<NodeId>)
      ensures named == set a | a in aliases && a in state.aliases :: state.aliases[a]
    {
      named := {};
      for n := 0 to |aliases|
        invariant named == set a | a in aliases[..n] && a in state.aliases :: state.aliases[a]
      {
        assert aliases[..n + 1] == aliases[..n] + [aliases[n]];
        if aliases[n] in state.aliases {
          named := named + {state.aliases[aliases[n]]};
        }
      }
      WholePrefix(aliases);
    }

    method AddressedBy(i: NodeIdentity, aliases: seq<Alias>, at: Time) returns (named: set<NodeId>)
      ensures named == set a | a in aliases && a in state.aliases
        && AddressUsable(state, cfg, i, a, state.aliases[a], at)
        :: state.aliases[a]
    {
      named := {};
      for n := 0 to |aliases|
        invariant named == set a | a in aliases[..n] && a in state.aliases
          && AddressUsable(state, cfg, i, a, state.aliases[a], at)
          :: state.aliases[a]
      {
        assert aliases[..n + 1] == aliases[..n] + [aliases[n]];
        if aliases[n] in state.aliases && AddressUsable(state, cfg, i, aliases[n], state.aliases[aliases[n]], at) {
          named := named + {state.aliases[aliases[n]]};
        }
      }
      WholePrefix(aliases);
    }

    /** Every key now names the value. */
    method Put<K, V>(into: map<K, V>, keys: seq<K>, value: V) returns (result: map<K, V>)
      ensures result == into + map k | k in keys :: value
    {
      result := into;
      for n := 0 to |keys|
        invariant result == into + map k | k in keys[..n] :: value
      {
        assert keys[..n + 1] == keys[..n] + [keys[n]];
        result := result[keys[n] := value];
      }
      WholePrefix(keys);
    }

    method Bind(i: NodeIdentity, node: NodeId, at: Time)
      modifies this
      ensures state == BindAliases(old(state), i, node, at)
    {
      var aliases := Put(state.aliases, StrongAliases(i) + AddressAliases(i), node);
      var seen := Put(state.aliasSeen, AddressAliases(i), at);
      state := state.(aliases := aliases, aliasSeen := seen);
    }

    /** resolveIdentityLocked. */
    method ResolveIdentity(identity: NodeIdentity, at: Time, o: Oracle)
      returns (node: NodeId, created: bool, canonical: bool)
      modifies this
      ensures Resolution(state, node, created, canonical) == Resolve(old(state), cfg, identity, at, o)
    {
      var i := WithoutConflict(state, identity);
      var matches := CollectMatches(i, at);
      created, canonical := false, false;
      if matches == {} {
        node := o.newId(state);
        state := state.(nodes := state.nodes[node := NewNode(i, StatusOf(i), at)]);
        created, canonical := true, true;
      } else {
        node := Survivor(state, i, matches);
        var others := Ascending(matches - {node});
        for n := 0 to |others|
          invariant state == MergeAll(old(state), node, others[..n], o)
          invariant canonical == (n > 0)
        {
          assert others[..n + 1][..n] == others[..n];
          MergeNodes(node, others[n], o);
          canonical := true;
        }
        WholePrefix(others);
        state := AbsorbIdentity(state, node, i);
      }
      Bind(i, node, at);
    }

    // -------------------------------------------------------------------------------------------
    // Ownership
    // -------------------------------------------------------------------------------------------

    /** claimReporterObserverLocked. */
    method ClaimObserver(reporter: ReporterId, node: NodeId)
      modifies this
      ensures state == Claim(old(state), reporter, node)
    {
      var observer := if node in state.observers then state.observers[node] else Observer(None, EMPTY, {}, NEVER);
      if observer.owner.Some? && observer.owner.value != reporter && observer.owner.value in state.reporters {
        var previous := observer.owner.value;
        var left := state.reporters[previous].observers - {node};
        if left == {} {
          state := state.(reporters := state.reporters - {previous});
        } else {
          state := state.(reporters := state.reporters[previous := state.reporters[previous].(observers := left)]);
        }
      }
      state := state.(observers := state.observers[node := observer.(owner := Some(reporter), withdrawnAt := NEVER)]);
      if reporter in state.reporters {
        state := state.(reporters := state.reporters[reporter :=
          state.reporters[reporter].(observers := state.reporters[reporter].observers + {node})]);
      }
    }

    /** withdrawObserverLocked. */
    method WithdrawObserver(reporter: ReporterId, node: NodeId, at: Time)
      modifies this
      ensures state == Withdraw(old(state), reporter, node, at)
    {
      if node !in state.observers || state.observers[node].owner != Some(reporter) || reporter !in state.reporters {
        return;
      }
      var edges := state.edges;
      var todo := edges.Keys;
      while todo != {}
        invariant todo <= edges.Keys == state.edges.Keys
        invariant edges == map k | k in state.edges ::
          if k in todo then state.edges[k] else WithdrawObservation(state.edges[k], node, at)
      {
        var key :| key in todo;
        todo := todo - {key};
        if node in edges[key].observations {
          var observation := edges[key].observations[node].(withdrawnAt := at);
          edges := edges[key := edges[key].(observations := edges[key].observations[node := observation])];
        }
      }
      state := state.(
        observers := state.observers[node := state.observers[node].(owner := None, withdrawnAt := at)],
        reporters := state.reporters[reporter :=
          state.reporters[reporter].(observers := state.reporters[reporter].observers - {node})],
        edges := edges);
    }

    /** reporterOwnsObserversLocked. */
    method OwnsObservers(reporter: ReporterId, obs: seq<ObserverReport>, at: Time) returns (all: bool)
      ensures all == OwnsAll(state, cfg, reporter, obs, at)
    {
      for n := 0 to |obs|
        invariant OwnsAll(state, cfg, reporter, obs, at) == OwnsAll(state, cfg, reporter, obs[n..], at)
      {
        var found := Lookup(state, cfg, obs[n].observer, at);
        if found.None? || found.value !in state.observers || state.observers[found.value].owner != Some(reporter) {
          return false;
        }
        assert obs[n..][1..] == obs[n + 1..];
      }
      return true;
    }

    /** replaceInventoryLocked, on the record that the pointer refers to: if that record was discarded, its edges
        still lose the peers no longer listed, and the new inventory is lost. */
    method ReplaceInventory(held: Held, node: NodeId, generation: Text, members: set<NodeId>)
      modifies this
      ensures state == ReplaceHeld(old(state), held, node, generation, members)
    {
      var membership := {};
      match held {
        case Discarded(discarded) => membership := discarded;
        case At(home) =>
          if home !in state.observers {
            return;
          }
          membership := state.observers[home].membership;
      }
      var edges := WithoutUnlisted(state.edges, node, membership, members);
      state := state.(edges := edges);
      if held.At? {
        var record := state.observers[held.node].(generation := generation, membership := members);
        state := state.(observers := state.observers[held.node := record]);
      }
    }

    method WithoutUnlisted(before: map<EdgeKey, Edge>, node: NodeId, membership: set<NodeId>, members: set<NodeId>)
      returns (edges: map<EdgeKey, Edge>)
      ensures edges == WithoutPeers(before, node, membership - members)
    {
      edges := before;
      var todo := membership;
      while todo != {}
        invariant todo <= membership
        invariant edges == map k | k in before ::
          if exists p | p in membership - todo && p !in members :: k == EdgeOf(node, p)
          then WithoutObservation(before[k], node) else before[k]
      {
        var peer :| peer in todo;
        todo := todo - {peer};
        if peer !in members {
          var key := EdgeOf(node, peer);
          if key in edges {
            edges := edges[key := edges[key].(observations := edges[key].observations - {node})];
          }
        }
      }
    }

    // -------------------------------------------------------------------------------------------
    // Housekeeping
    // -------------------------------------------------------------------------------------------

    method PruneReporters(now: Time)
      modifies this
      ensures state == old(state).(reporters := LiveReporters(old(state), cfg, now))
    {
      var reporters := state.reporters;
      var todo := reporters.Keys;
      while todo != {}
        invariant todo <= reporters.Keys <= state.reporters.Keys
        invariant reporters == map r | r in state.reporters &&
          (r in todo || !ReporterExpired(state, cfg, state.reporters[r], now)) :: state.reporters[r]
      {
        var r :| r in todo;
        todo := todo - {r};
        if reporters[r].observers == {} && (reporters[r].memory.lastAcceptedAt == NEVER
            || now - reporters[r].memory.lastAcceptedAt > cfg.EvidenceWindow()) {
          reporters := reporters - {r};
        }
      }
      state := state.(reporters := reporters);
    }

    /** removeNodeAddressLocked. */
    method RemoveAddress(nodes: map<NodeId, Node>, node: NodeId, expired: Text) returns (result: map<NodeId, Node>)
      ensures result == if node in nodes then nodes[node := DropAddresses(nodes[node], {expired})] else nodes
    {
      result := nodes;
      if node in nodes {
        var before := nodes[node].identity.addresses;
        var addresses: seq<Text> := [];
        assert before[0..] == before;
        for i := 0 to |before|
          invariant WithoutAddresses(before, {expired}) == addresses + WithoutAddresses(before[i..], {expired})
        {
          assert before[i..][1..] == before[i + 1..];
          if before[i] != expired {
            addresses := addresses + [before[i]];
          }
        }
        assert before[|before|..] == [] && addresses + [] == addresses;
        result := nodes[node := nodes[node].(identity := nodes[node].identity.(addresses := addresses))];
      }
    }

    /** Addresses not seen for a node window lose their alias and leave their node. */
    method PruneAddresses(now: Time)
      modifies this
      ensures state == old(state).(
        aliases := LiveAliases(old(state), cfg, now),
        aliasSeen := LiveSeen(old(state), cfg, now),
        nodes := WithLiveAddresses(old(state), cfg, now))
    {
      var aliases, seen, nodes := state.aliases, state.aliasSeen, state.nodes;
      var todo := aliases.Keys;
      ghost var dropped: set<Alias> := {};
      forall n | n in nodes ensures DropAddresses(nodes[n], TextsAt(state, dropped, n)) == nodes[n] {
        DropNothing(nodes[n].identity.addresses);
        assert TextsAt(state, dropped, n) == {};
      }
      while todo != {}
        invariant state == old(state) && todo <= aliases.Keys
        invariant dropped == set a | a in state.aliases && a !in todo && AddressExpired(state, cfg, a, now)
        invariant aliases == state.aliases - dropped
        invariant seen == state.aliasSeen - dropped
        invariant nodes == map n | n in state.nodes :: DropAddresses(state.nodes[n], TextsAt(state, dropped, n))
      {
        var alias :| alias in todo;
        todo := todo - {alias};
        if AddressExpired(state, cfg, alias, now) {
          var node := aliases[alias];
          forall n | n in nodes
            ensures DropAddresses(state.nodes[n], TextsAt(state, dropped + {alias}, n))
                 == if n == node then DropAddresses(nodes[n], {alias.text}) else nodes[n]
          {
            DropOneMore(state.nodes[n].identity.addresses, TextsAt(state, dropped, n), alias.text);
            assert TextsAt(state, dropped + {alias}, n) ==
              TextsAt(state, dropped, n) + if n == node then {alias.text} else {};
            if n != node {
              assert TextsAt(state, dropped + {alias}, n) == TextsAt(state, dropped, n);
            }
          }
          aliases := aliases - {alias};
          seen := seen - {alias};
          nodes := RemoveAddress(nodes, node, alias.text);
          dropped := dropped + {alias};
        }
      }
      AddressesPruned(state, cfg, now, dropped);
      state := state.(aliases := aliases, aliasSeen := seen, nodes := nodes);
    }

    method PruneScopes(now: Time)
      modifies this
      ensures state == old(state).(scopes := LiveScopes(old(state), cfg, now))
    {
      var scopes := state.scopes;
      var todo := scopes.Keys;
      while todo != {}
        invariant todo <= scopes.Keys <= state.scopes.Keys
        invariant forall k | k in state.scopes :: k in scopes <==> k in todo || !ScopeExpired(state.scopes[k], cfg, now)
        invariant forall k | k in scopes ::
          scopes[k] == if k in todo then state.scopes[k] else PruneScope(state.scopes[k], cfg, now)
      {
        var key :| key in todo;
        todo := todo - {key};
        if ScopeExpired(scopes[key], cfg, now) {
          scopes := scopes - {key};
        } else {
          scopes := scopes[key := PruneScope(scopes[key], cfg, now)];
        }
      }
      state := state.(scopes := scopes);
    }

    /** pruneIndexesLocked. */
    method PruneIndexes(now: Time)
      modifies this
      ensures state == Prune(old(state), cfg, now)
    {
      PruneReporters(now);
      ReportersDoNotAge(old(state), state.reporters, cfg, now);
      PruneAddresses(now);
      PruneScopes(now);
    }

    // -------------------------------------------------------------------------------------------
    // Applying a report. The locals of applyLocked travel as a Work whose graph is the state.
    // -------------------------------------------------------------------------------------------

    /** markObserverEdgesTouchedLocked. */
    method MarkObserverEdges(w0: Work, node: NodeId) returns (w: Work)
      requires w0.graph == state
      ensures w == TouchObserverEdges(w0, node)
    {
      var touched := NoteObserved(w0.touched, state.edges, node);
      w := w0.(touched := touched);
    }

    method NoteObserved(before: map<EdgeKey, Option<Evidence>>, edges: map<EdgeKey, Edge>, node: NodeId)
      returns (touched: map<EdgeKey, Option<Evidence>>)
      ensures touched == (map k | k in edges && node in edges[k].observations :: edges[k].lastKnown) + before
    {
      touched := before;
      var todo := edges.Keys;
      while todo != {}
        invariant todo <= edges.Keys
        invariant forall k :: k in touched <==>
          k in before || (k in edges && k !in todo && node in edges[k].observations)
        invariant forall k | k in touched :: touched[k] == if k in before then before[k] else edges[k].lastKnown
      {
        var key :| key in todo;
        todo := todo - {key};
        if node in edges[key].observations && key !in touched {
          touched := touched[key := edges[key].lastKnown];
        }
      }
    }

    method WithdrawReported(w0: Work, report: Report, at: Time) returns (w: Work)
      requires w0.graph == state
      modifies this
      ensures w == WithdrawAll(w0, cfg, report, report.observers, at) && w.graph == state
    {
      w := w0;
      var obs := report.observers;
      for n := 0 to |obs|
        invariant w == WithdrawAll(w0, cfg, report, obs[..n], at) && w.graph == state
      {
        WithdrawNext(w0, cfg, report, obs, n, at);
        w := WithdrawReportedOne(w, report, obs[n], at);
      }
      WholePrefix(obs);
    }

    method WithdrawReportedOne(w0: Work, report: Report, ob: ObserverReport, at: Time) returns (w: Work)
      requires w0.graph == state
      modifies this
      ensures w == WithdrawOne(w0, cfg, report, ob, at) && w.graph == state
    {
      w := w0;
      var found := Lookup(state, cfg, ob.observer, at);
      if found.Some? && found.value in state.observers && state.observers[found.value].owner == Some(report.reporter) {
        state := TouchObserver(state, found.value, CollectionTime(ob, report.collectedAt), at);
        w := MarkObserverEdges(w.(graph := state), found.value);
        WithdrawObserver(report.reporter, found.value, at);
        w := w.(graph := state, checkpoint := true);
      }
    }

    method ListInventory(w0: Work, home: NodeId, peers: seq<PeerObservation>, collectedAt: Time, at: Time, o: Oracle)
      returns (w: Work, members: set<NodeId>, held: Held)
      requires w0.graph == state
      modifies this
      ensures Listing(w, members, held) == ListPeers(w0, cfg, home, peers, collectedAt, at, o) && w.graph == state
    {
      w, members, held := w0, {}, At(home);
      for n := 0 to |peers|
        invariant Listing(w, members, held) == ListPeers(w0, cfg, home, peers[..n], collectedAt, at, o)
          && w.graph == state
      {
        assert peers[..n + 1][..n] == peers[..n];
        held := HeldOnResolve(state, cfg, peers[n].peer, at, o, held);
        var node, created, canonical := ResolveIdentity(peers[n].peer, at, o);
        state := TouchCollected(state, node, collectedAt);
        if created {
          state := TouchPeer(state, node, at);
        }
        members := members + {node};
        w := w.(graph := state, canonical := w.canonical || canonical);
      }
      WholePrefix(peers);
    }

    /** A session's open end is the rest of the pair. `tangled` if the scope merged away with it. */
    method CompleteRelaySession(key: ScopeKey, pair: EdgeKey, id: Text, at: Time, o: Oracle)
      returns (changed: bool, tangled: bool)
      modifies this
      ensures Reconciled(state, changed, tangled) == CompleteSession(old(state), cfg, key, pair, id, at, o)
    {
      if !HasSession(state, key, id) {
        return false, false;
      }
      var s := SessionOf(state, key, id);
      if !SessionInferable(state, cfg, pair, s, at) {
        return false, false;
      }
      var before := state;
      var known, open := s.source, s.target;
      if !InPair(pair, s.source) {
        known, open := s.target, s.source;
      }
      var keep := Complement(pair, known);
      MergeNodes(keep, open, o);
      changed, tangled := true, Tangled(before, state, key);
      if !tangled && HasSession(state, key, id) {
        var t := SessionOf(state, key, id);
        if InPair(pair, s.source) {
          t := t.(target := keep, targetStatus := Resolved);
        } else {
          t := t.(source := keep, sourceStatus := Resolved);
        }
        state := PutSession(state, key, id, t);
      }
    }

    /** reconcileRelayScopeLocked. Once the scope is tangled, what the loop goes on to do to the copy in its hands is
        the oracle's choice. */
    method ReconcileRelayScope(key: ScopeKey, at: Time, o: Oracle) returns (changed: bool, tangled: bool)
      requires Fair(o)
      modifies this
      ensures Reconciled(state, changed, tangled) == ReconcileScope(old(state), cfg, key, at, o)
    {
      if key !in state.scopes || !Established(state.scopes[key], cfg, at) {
        return false, false;
      }
      var before, pair := state, state.scopes[key].pair.value;
      var order := o.sessionOrder(state.scopes[key].sessions);
      changed, tangled := false, false;
      for n := 0 to |order|
        invariant !tangled && Completing(before, state, key, pair, order, n, changed, at, o)
      {
        ghost var between := state;
        var completed;
        completed, tangled := CompleteRelaySession(key, pair, order[n], at, o);
        CompletingNext(before, between, key, pair, order, n, changed, at, o, Reconciled(state, completed, tangled));
        changed := changed || completed;
        if tangled {
          state := AfterInference(before, o);
          return true, true;
        }
      }
      CompletingDone(before, state, key, pair, order, changed, at, o);
    }

    /** The first sessions are visited, and something was changed exactly if one of them could be inferred. */
    ghost predicate Completing(
      before: Graph, after: Graph, key: ScopeKey, pair: EdgeKey, order: seq<Text>, n: nat, changed: bool, at: Time,
      o: Oracle)
      requires n <= |order|
    {
      && Reconciled(after, changed, false) == CompleteSessions(before, cfg, key, pair, order[..n], at, o)
      && if changed then ScopeInferable(before, cfg, key, at)
         else after == before && !AnyInferable(before, key, pair, order[..n], at)
    }

    lemma CompletingNext(
      before: Graph, after: Graph, key: ScopeKey, pair: EdgeKey, order: seq<Text>, n: nat, changed: bool, at: Time,
      o: Oracle,
      r: Reconciled)
      requires n < |order| && Completing(before, after, key, pair, order, n, changed, at, o)
      requires key in before.scopes && Established(before.scopes[key], cfg, at) && before.scopes[key].pair == Some(pair)
      requires order == o.sessionOrder(before.scopes[key].sessions)
      requires r == CompleteSession(after, cfg, key, pair, order[n], at, o)
      ensures r.tangled ==> Reconciled(AfterInference(before, o), true, true) == ReconcileScope(before, cfg, key, at, o)
      ensures !r.tangled ==> Completing(before, r.graph, key, pair, order, n + 1, changed || r.changed, at, o)
    {
      NextSession(before, cfg, key, pair, order, n, at, o);
      AnyOneMore(before, key, pair, order, n, at);
      if r.tangled {
        StaysTangled(before, cfg, key, pair, order, n + 1, at, o);
      }
    }

    lemma CompletingDone(
      before: Graph, after: Graph, key: ScopeKey, pair: EdgeKey, order: seq<Text>, changed: bool, at: Time, o: Oracle)
      requires Completing(before, after, key, pair, order, |order|, changed, at, o)
      requires key in before.scopes && Established(before.scopes[key], cfg, at) && before.scopes[key].pair == Some(pair)
      requires order == o.sessionOrder(before.scopes[key].sessions)
        && Enumerates(order, before.scopes[key].sessions.Keys)
      ensures Reconciled(after, changed, false) == ReconcileScope(before, cfg, key, at, o)
    {
      WholePrefix(order);
      if !changed {
        NoneInferable(before, key, pair, order, at);
      }
    }

    ghost predicate InferableAt(g: Graph, key: ScopeKey, pair: EdgeKey, id: Text, at: Time) {
      HasSession(g, key, id) && SessionInferable(g, cfg, pair, SessionOf(g, key, id), at)
    }

    ghost predicate AnyInferable(g: Graph, key: ScopeKey, pair: EdgeKey, among: seq<Text>, at: Time) {
      exists i | 0 <= i < |among| :: InferableAt(g, key, pair, among[i], at)
    }

    lemma AnyOneMore(g: Graph, key: ScopeKey, pair: EdgeKey, order: seq<Text>, n: nat, at: Time)
      requires n < |order|
      ensures AnyInferable(g, key, pair, order[..n + 1], at) <==>
        AnyInferable(g, key, pair, order[..n], at) || InferableAt(g, key, pair, order[n], at)
      ensures
        var established := key in g.scopes && Established(g.scopes[key], cfg, at) && g.scopes[key].pair == Some(pair);
        established && InferableAt(g, key, pair, order[n], at) ==> ScopeInferable(g, cfg, key, at)
    {
      if AnyInferable(g, key, pair, order[..n], at) {
        var i :| 0 <= i < n && InferableAt(g, key, pair, order[..n][i], at);
        assert order[..n + 1][i] == order[..n][i];
      }
      assert order[..n + 1][n] == order[n];
      if AnyInferable(g, key, pair, order[..n + 1], at) {
        var i :| 0 <= i < n + 1 && InferableAt(g, key, pair, order[..n + 1][i], at);
        if i < n {
          assert order[..n][i] == order[..n + 1][i];
        }
      }
    }

    /** Every session was visited, so none that could be inferred was passed over. */
    lemma NoneInferable(g: Graph, key: ScopeKey, pair: EdgeKey, order: seq<Text>, at: Time)
      requires key in g.scopes && g.scopes[key].pair == Some(pair) && Enumerates(order, g.scopes[key].sessions.Keys)
      requires !AnyInferable(g, key, pair, order, at)
      ensures !ScopeInferable(g, cfg, key, at)
    {
      forall id | id in g.scopes[key].sessions ensures !InferableAt(g, key, pair, id, at) {
        var i :| 0 <= i < |order| && order[i] == id;
      }
    }

    /** recordRelayPairLocked. */
    method RecordRelayPair(relay: NodeId, vni: int, left: NodeId, right: NodeId, at: Time, o: Oracle)
      returns (changed: bool, tangled: bool)
      requires Fair(o)
      modifies this
      ensures Reconciled(state, changed, tangled) == RecordPair(old(state), cfg, relay, vni, left, right, at, o)
    {
      if left == right {
        return false, false;
      }
      var key := ScopeKey(relay, vni);
      var created := key !in state.scopes;
      var scope := ScopeAt(state, key, at);
      var pair := EdgeOf(left, right);
      if scope.pairAt == NEVER || at - scope.pairAt > cfg.EvidenceWindow() {
        scope := scope.(pair := Some(pair), pairAt := at, conflictAt := NEVER);
      } else if scope.pair == Some(pair) {
        scope := scope.(pairAt := at);
      } else {
        scope := scope.(conflictAt := at);
      }
      state := state.(scopes := state.scopes[key := scope]);
      changed, tangled := ReconcileRelayScope(key, at, o);
      changed := changed || created;
    }

    method PairSeenThroughRelay(
      w0: Work, node: NodeId, peerNode: NodeId, path: Path, collectedAt: Time, at: Time, o: Oracle) returns (w: Work)
      requires w0.graph == state && Fair(o)
      modifies this
      ensures w == PairThroughRelay(w0, cfg, node, peerNode, path, collectedAt, at, o) && w.graph == state
    {
      w := w0;
      if path.kind == PeerRelay && path.vni.Some? && path.stable != EMPTY {
        var relay, created, canonical := ResolveIdentity(NO_IDENTITY.(stable := path.stable), at, o);
        state := TouchCollected(state, relay, collectedAt);
        var changed, _ := RecordRelayPair(relay, path.vni.value, node, peerNode, at, o);
        w := w.(graph := state, canonical := w.canonical || canonical || changed);
      }
    }

    method SamplePeerOnce(w0: Work, node: NodeId, peer: PeerObservation, collectedAt: Time, at: Time, o: Oracle)
      returns (w: Work)
      requires w0.graph == state && Fair(o)
      modifies this
      ensures w == SamplePeer(w0, cfg, node, peer, collectedAt, at, o) && w.graph == state
    {
      w := w0;
      if peer.rx == 0 && peer.tx == 0 {
        return;
      }
      var other, created, canonical := ResolveIdentity(peer.peer, at, o);
      state := TouchCollected(state, other, collectedAt);
      state := TouchPeer(state, other, at);
      w := w.(graph := state, canonical := w.canonical || canonical);
      var key := EdgeOf(node, other);
      w := TouchEdge(w, key);
      w := PairSeenThroughRelay(w, node, other, peer.path, collectedAt, at, o);
      state := PutObservation(state, key, PeerSample(node, peer, collectedAt, at), at);
      state := MarkSystem(state, cfg, key, node, other);
      var aToB, bToA := peer.tx, peer.rx;
      if node != key.source {
        aToB, bToA := peer.rx, peer.tx;
      }
      w := w.(graph := state, traffic := w.traffic + [Traffic(key, node, aToB, bToA, at)]);
    }

    method SampleTraffic(w0: Work, node: NodeId, peers: seq<PeerObservation>, collectedAt: Time, at: Time, o: Oracle)
      returns (w: Work)
      requires w0.graph == state && Fair(o)
      modifies this
      ensures w == SamplePeers(w0, cfg, node, peers, collectedAt, at, o) && w.graph == state
    {
      w := w0;
      for n := 0 to |peers|
        invariant w == SamplePeers(w0, cfg, node, peers[..n], collectedAt, at, o) && w.graph == state
      {
        assert peers[..n + 1][..n] == peers[..n];
        w := SamplePeerOnce(w, node, peers[n], collectedAt, at, o);
      }
      WholePrefix(peers);
    }

    method ArriveObserver(w0: Work, report: Report, ob: ObserverReport, at: Time, o: Oracle)
      returns (w: Work, node: NodeId)
      requires w0.graph == state
      modifies this
      ensures (w, node) == Arrive(w0, cfg, report, ob, at, o) && w.graph == state
    {
      var created, canonical;
      node, created, canonical := ResolveIdentity(ob.observer, at, o);
      var collectedAt := CollectionTime(ob, report.collectedAt);
      state := TouchCollected(state, node, collectedAt);
      if report.kind == Hello {
        ClaimObserver(report.reporter, node);
      }
      state := TouchObserver(state, node, collectedAt, at);
      w := w0.(graph := state, canonical := w0.canonical || canonical);
    }

    /** One observer of a report; `ok` is false where the program dereferences nil. */
    method ObserveReport(w0: Work, report: Report, ob: ObserverReport, at: Time, o: Oracle) returns (w: Work, ok: bool)
      requires w0.graph == state && Fair(o)
      modifies this
      ensures ObserveOne(w0, cfg, report, ob, at, o) == if ok then Some(w) else None
      ensures ok ==> w.graph == state
    {
      var collectedAt := CollectionTime(ob, report.collectedAt);
      var node;
      w, node := ArriveObserver(w0, report, ob, at, o);
      ok := true;
      if node !in state.observers {
        ok := false;
      } else if report.kind == Hello || report.kind == InventoryUpdate {
        var members, held;
        w, members, held := ListInventory(w, node, ob.peers, collectedAt, at, o);
        w := MarkObserverEdges(w, node);
        ReplaceInventory(held, node, ob.generation, members);
        w := w.(graph := state);
      } else {
        w := w.(resync := w.resync || state.observers[node].generation != ob.generation);
        if report.kind == TrafficSample {
          w := SampleTraffic(w, node, ob.peers, collectedAt, at, o);
        }
      }
    }

    method ObserveEach(w0: Work, report: Report, at: Time, o: Oracle) returns (w: Work, ok: bool)
      requires w0.graph == state && Fair(o)
      modifies this
      ensures ObserveReports(w0, cfg, report, report.observers, at, o) == if ok then Some(w) else None
      ensures ok ==> w.graph == state
    {
      w, ok := w0, true;
      var obs := report.observers;
      for n := 0 to |obs|
        invariant ObserveReports(w0, cfg, report, obs[..n], at, o) == if ok then Some(w) else None
        invariant ok ==> w.graph == state
      {
        assert obs[..n + 1][..n] == obs[..n];
        if ok {
          w, ok := ObserveReport(w, report, obs[n], at, o);
        }
      }
      WholePrefix(obs);
    }

    /** resolveRelayClientLocked. */
    method ResolveRelayClient(w0: Work, existing: Option<NodeId>, c: RelayClient, at: Time, o: Oracle)
      returns (r: ClientResult)
      requires w0.graph == state
      modifies this
      ensures r == ResolveClient(w0, cfg, existing, c, at, o) && r.work.graph == state
    {
      if c.identity.Some? && StatusOf(c.identity.value) == Resolved {
        var node, created, canonical := ResolveIdentity(c.identity.value, at, o);
        if existing.Some? && existing.value != node {
          MergeNodes(node, existing.value, o);
          canonical := true;
        }
        r := ClientResult(
          w0.(graph := state, canonical := w0.canonical || canonical || existing.None?), node, Resolved);
      } else if existing.Some? {
        if existing.value in state.nodes && state.nodes[existing.value].status != Resolved {
          var node := state.nodes[existing.value].(status := ClientStatus(c));
          state := state.(nodes := state.nodes[existing.value := node]);
        }
        r := ClientResult(w0.(graph := state), existing.value, ClientStatus(c));
      } else {
        var id := o.newId(state);
        state := state.(nodes := state.nodes[id := NewNode(NO_IDENTITY, ClientStatus(c), at)]);
        r := ClientResult(w0.(graph := state, canonical := true), id, ClientStatus(c));
      }
    }

    /** A client resolved and remembered on its session. */
    method PlaceRelayClient(w0: Work, key: ScopeKey, id: Text, c: RelayClient, at: Time, o: Oracle)
      returns (r: ClientResult, tangled: bool)
      requires w0.graph == state
      modifies this
      ensures (r, tangled) == PlaceClient(w0, cfg, key, id, c, at, o) && r.work.graph == state
    {
      r := ResolveRelayClient(w0, ClientNode(state, key, id, c.id), c, at, o);
      tangled := Tangled(w0.graph, state, key);
      state := if tangled then state.(scopes := o.inferredScopes(state)) else PutClient(state, key, id, c.id, r.node);
      r := r.(work := r.work.(graph := state));
    }

    method PlaceRelaySession(w0: Work, relay: NodeId, s: SessionReport, at: Time, o: Oracle) returns (p: Placed)
      requires w0.graph == state
      modifies this
      ensures p == PlaceSession(w0, cfg, relay, s, at, o) && p.work.graph == state
    {
      var key := ScopeKey(relay, s.vni);
      var entered := EnterSession(w0, key, s.id, at);
      state := entered.graph;
      var a, lost := PlaceRelayClient(entered, key, s.id, s.source, at, o);
      var b, gone := PlaceRelayClient(a.work, key, s.id, s.target, at, o);
      if !lost && !gone {
        state := PutEnds(state, key, s, a, b);
      }
      p := Placed(b.work.(graph := state), a, b, lost || gone);
    }

    /** The pair of a session, recorded or made use of. */
    method SettleRelayPair(key: ScopeKey, p: Placed, at: Time, o: Oracle) returns (changed: bool, tangled: bool)
      requires Fair(o)
      modifies this
      ensures Reconciled(state, changed, tangled) == SettlePair(old(state), cfg, key, p, at, o)
    {
      changed, tangled := false, p.tangled;
      if p.source.node == p.target.node {
        return;
      }
      if p.tangled {
        state, changed := AfterInference(state, o), true;
      } else if p.source.status == Resolved && p.target.status == Resolved {
        changed, tangled := RecordRelayPair(key.relay, key.vni, p.source.node, p.target.node, at, o);
      } else {
        changed, tangled := ReconcileRelayScope(key, at, o);
      }
    }

    /** resolveRelaySessionLocked. */
    method ResolveRelaySession(w0: Work, relay: NodeId, s: SessionReport, at: Time, o: Oracle)
      returns (r: SessionResult)
      requires w0.graph == state && Fair(o)
      modifies this
      ensures r == ResolveSession(w0, cfg, relay, s, at, o) && r.work.graph == state
    {
      var key := ScopeKey(relay, s.vni);
      var p := PlaceRelaySession(w0, relay, s, at, o);
      var changed, tangled := SettleRelayPair(key, p, at, o);
      var ends := EndsOf(Reconciled(state, changed, tangled), key, s.id, p, o);
      r := SessionResult(p.work.(graph := state, canonical := p.work.canonical || changed), ends.0, ends.1);
    }

    method RelaySession(w0: Work, report: Report, s: SessionReport, at: Time, o: Oracle) returns (w: Work)
      requires w0.graph == state && Fair(o)
      modifies this
      ensures w == RelayOne(w0, cfg, report, s, at, o) && w.graph == state
    {
      var relay, created, canonical := ResolveIdentity(s.relay, at, o);
      state := TouchCollected(state, relay, report.collectedAt);
      state := TouchObserver(state, relay, report.collectedAt, at);
      ClaimObserver(report.reporter, relay);
      var session := ResolveRelaySession(
        w0.(graph := state, canonical := w0.canonical || canonical), relay, s, at, o);
      w := RelaySettle(session, cfg, report, relay, s, at);
      state := w.graph;
    }

    method RelayNextSession(ghost w0: Work, before: Work, report: Report, n: nat, at: Time, o: Oracle) returns (w: Work)
      requires n < |report.sessions| && Fair(o) && before.graph == state
      requires before == RelayAll(w0, cfg, report, report.sessions[..n], at, o)
      modifies this
      ensures w == RelayAll(w0, cfg, report, report.sessions[..n + 1], at, o) && w.graph == state
    {
      w := RelaySession(before, report, report.sessions[n], at, o);
      RelayNext(w0, cfg, report, report.sessions, n, at, o);
    }

    method RelayEach(w0: Work, report: Report, at: Time, o: Oracle) returns (w: Work)
      requires w0.graph == state && Fair(o)
      modifies this
      ensures w == RelayAll(w0, cfg, report, report.sessions, at, o) && w.graph == state
    {
      w := w0;
      var sessions := report.sessions;
      for n := 0 to |sessions|
        invariant w == RelayAll(w0, cfg, report, sessions[..n], at, o) && w.graph == state
      {
        w := RelayNextSession(w0, w, report, n, at, o);
      }
      WholePrefix(sessions);
    }

    /** The fresh observations of an edge, in whatever order the map yields them. */
    method FreshObservations(k: EdgeKey, edge: Edge, now: Time) returns (observations: seq<Provenance>)
      requires KeyedAs(k, edge)
      ensures Indexes(Visible(edge, cfg, now), observations)
    {
      observations := [];
      var todo := edge.observations.Keys;
      while todo != {}
        invariant todo <= edge.observations.Keys
        invariant forall p | p in observations ::
          p.observer in edge.observations && p.observer !in todo &&
          Fresh(edge.observations[p.observer], cfg.EvidenceWindow(), now) &&
          p == ProvenanceOf(edge.observations[p.observer])
        invariant forall n | n in edge.observations && n !in todo &&
          Fresh(edge.observations[n], cfg.EvidenceWindow(), now) :: ProvenanceOf(edge.observations[n]) in observations
        invariant forall i, j | 0 <= i < j < |observations| :: observations[i].observer != observations[j].observer
      {
        var n :| n in todo;
        todo := todo - {n};
        if Fresh(edge.observations[n], cfg.EvidenceWindow(), now) {
          observations := observations + [ProvenanceOf(edge.observations[n])];
        }
      }
    }

    /** snapshotEdgeLocked as the transition log sees it: the reconciler run over the fresh observations. */
    method SnapshotEdge(k: EdgeKey, edge: Edge, now: Time) returns (e: Evidence)
      requires KeyedAs(k, edge)
      ensures e == EvidenceAt(edge, cfg, now)
    {
      var observations := FreshObservations(k, edge, now);
      ghost var observed := Visible(edge, cfg, now);
      ghost var seen := SeenBy(observed);
      SeenAsListed(observed, observations);
      var previous := if edge.lastKnown.Some? then PathOf(edge.lastKnown.value.primary) else NO_PATH;
      if observations == [] {
        return Evidence(if edge.lastKnown.Some? then edge.lastKnown.value.primary else UnknownKey, [], []);
      }
      assert observations[0].observer in observed;
      var path, conflicts := ReconcilePathEvidence(edge.source, edge.target, previous, observations);
      var directions := DirectionalPaths(edge.source, edge.target, observations);
      ProjectedOnce(directions, edge.source, edge.target, observed, observations);
      if edge.lastKnown.Some? {
        PathOfKey(edge.lastKnown.value.primary, seen);
      }
      ghost var primary := PrimaryKey(
        edge.source, edge.target, if edge.lastKnown.Some? then Some(edge.lastKnown.value.primary) else None, seen);
      DecisionUnique(edge.source, edge.target, PreviousKey(previous), seen, KeyOf(path), KeysOf(conflicts),
                     primary, SortedKeys(SupportedKeys(seen) - {primary}));
      e := Evidence(KeyOf(path), KeysOf(conflicts), directions);
    }

    /** The closing loop of applyLocked, edge by edge in map order. */
    method LogTransitions(touched: map<EdgeKey, Option<Evidence>>, before: map<EdgeKey, Edge>, at: Time)
      returns (edges: map<EdgeKey, Edge>, transitions: map<EdgeKey, Evidence>)
      requires WellKeyed(before) && touched.Keys <= before.Keys
      ensures edges == map k | k in before :: if k in touched.Keys then Learn(before[k], cfg, at) else before[k]
      ensures transitions == map k | k in touched && Changes(touched[k], EvidenceAt(before[k], cfg, at))
        :: EvidenceAt(before[k], cfg, at)
    {
      transitions := map[];
      edges := before;
      var todo := touched.Keys;
      while todo != {}
        invariant Logging(before, touched, todo, edges, transitions, cfg, at)
      {
        var key :| key in todo;
        var current := SnapshotEdge(key, edges[key], at);
        LogOne(before, touched, todo, edges, transitions, cfg, at, key);
        if Changes(touched[key], current) {
          transitions := transitions[key := current];
        }
        edges := edges[key := edges[key].(lastKnown := Some(current))];
        todo := todo - {key};
      }
      LogDone(before, touched, edges, transitions, cfg, at);
    }

    /** applyLocked. No result stands for the nil dereference that ends the report. */
    method ApplyReport(report: Report, at: Time, o: Oracle) returns (result: Option<Applied>)
      requires Sound(state) && Fair(o)
      modifies this
      ensures result == Apply(old(state), cfg, report, at, o)
      ensures result.Some? ==> state == result.value.graph && Sound(state)
    {
      ApplyKeepsSound(state, cfg, report, at, o);
      EnrolSound(state, cfg, report.reporter, at);
      PruneIndexes(at);
      var pruned := state;
      state := Enrol(state, report.reporter);
      var ownsAll := OwnsObservers(report.reporter, report.observers, at);
      match Judge(state.reporters[report.reporter].memory, report.kind, report.sequence, report.id, ownsAll)
      case Duplicate => return Some(Unchanged(state, true, false));
      case Stale => return Some(Unchanged(state, false, false));
      case NotOwner =>
        state := pruned;
        return Some(Unchanged(state, false, true));
      case Admit(resync) =>
        result := CarryOut(Work0(state, resync), report, at, o);
    }

    method CarryOut(w0: Work, report: Report, at: Time, o: Oracle) returns (result: Option<Applied>)
      requires w0.graph == state && SoundFor(w0, report.reporter) && Fair(o)
      modifies this
      ensures result == Carry(w0, cfg, report, at, o)
      ensures result.Some? ==> state == result.value.graph
    {
      ProcessSound(w0, cfg, report, at, o);
      var w, ok := w0, true;
      if report.kind == Withdrawal {
        w := WithdrawReported(w0, report, at);
      } else if report.kind == RelayUpdate {
        w := RelayEach(w0, report, at, o);
      } else {
        w, ok := ObserveEach(w0, report, at, o);
      }
      if !ok || !(w.touched.Keys <= state.edges.Keys) {
        return None;
      }
      var edges, transitions := LogTransitions(w.touched, state.edges, at);
      state := state.(edges := edges);
      if report.reporter in state.reporters {
        var reporter := state.reporters[report.reporter];
        state := state.(reporters := state.reporters[report.reporter :=
          reporter.(memory := Remember(reporter.memory, report.sequence, report.id, at))]);
      }
      result := Some(Applied(state, true, w.resync, true, w.canonical, w.checkpoint, w.traffic, transitions));
    }

    // -------------------------------------------------------------------------------------------
    // The device directory
    // -------------------------------------------------------------------------------------------

    /** resolveDirectoryDeviceLocked. */
    method ResolveDirectoryDevice(d: Device, keyShared: bool, at: Time, o: Oracle)
      returns (node: NodeId, conflicting: Option<NodeId>, canonical: bool)
      modifies this
      ensures DeviceResult(state, node, conflicting, canonical) == ResolveDevice(old(state), cfg, d, keyShared, at, o)
    {
      conflicting, canonical := None, false;
      var found := if StableAlias(d.stable) in state.aliases then Some(state.aliases[StableAlias(d.stable)]) else None;
      if d.nodeKey != EMPTY && !keyShared && NodeKeyAlias(d.nodeKey) in state.aliases {
        conflicting := ConflictingNode(state, d.stable, NodeKeyAlias(d.nodeKey));
        var byKey := state.aliases[NodeKeyAlias(d.nodeKey)];
        if conflicting.None? && byKey in state.nodes {
          if found.None? {
            state := Adopt(state, byKey, d.stable);
            return byKey, None, true;
          } else if byKey != found.value {
            MergeNodes(found.value, byKey, o);
            return found.value, None, true;
          }
        }
      }
      if found.Some? {
        node := found.value;
      } else {
        var created;
        node, created, canonical := ResolveIdentity(OnlyStable(d.stable), at, o);
        if created {
          state := Unseen(state, node);
        }
      }
    }

    /** applyDirectorySnapshotLocked: the new directory is put in place once every device has a node. */
    method ApplyDirectorySnapshot(devices: seq<Device>, at: Time, o: Oracle)
      modifies this
      ensures state == ApplyDirectory(old(state), cfg, devices, at, o)
    {
      var canonical: map<Text, NodeId> := map[];
      var conflicts: map<NodeId, set<Text>> := map[];
      for n := 0 to |devices|
        invariant Sync(state, canonical, conflicts) == SyncDevices(old(state), cfg, devices, devices[..n], at, o)
      {
        assert devices[..n + 1][..n] == devices[..n];
        var d := devices[n];
        var node, conflicting, _ := ResolveDirectoryDevice(d, KeyShared(devices, d.nodeKey), at, o);
        canonical := canonical[d.stable := node];
        if conflicting.Some? && conflicting.value != node && conflicting.value in state.nodes {
          conflicts := AddConflict(conflicts, node, state.nodes[conflicting.value].identity.stable);
          conflicts := AddConflict(conflicts, conflicting.value, d.stable);
        }
      }
      WholePrefix(devices);
      state := state.(directory := Some(Directory(devices, canonical, WithRivals(devices, canonical, conflicts))));
    }
  }

  // -----------------------------------------------------------------------------------------------
  // Helpers
  // -----------------------------------------------------------------------------------------------

  /** A path that carries a given key, where some path does. */
  function PathOf(key: Key): Path {
    match key
    case DerpKey(region) => if region == EMPTY then NO_PATH else NO_PATH.(kind := Derp, region := region)
    case DirectKey => NO_PATH.(kind := Direct)
    case RelayStable(stable) => if stable == EMPTY then NO_PATH else NO_PATH.(kind := PeerRelay, stable := stable)
    case RelayEndpoint(endpoint) =>
      if endpoint == EMPTY then NO_PATH else NO_PATH.(kind := PeerRelay, endpoint := endpoint)
    case RelayVni(vni) => NO_PATH.(kind := PeerRelay, vni := Some(vni))
    case RelayUnknown => NO_PATH.(kind := PeerRelay)
    case UnknownKey => NO_PATH.(kind := UnknownPath)
  }

  lemma NextSession(g: Graph, cfg: Config, key: ScopeKey, pair: EdgeKey, order: seq<Text>, n: nat, at: Time, o: Oracle)
    requires n < |order|
    ensures var before := CompleteSessions(g, cfg, key, pair, order[..n], at, o);
      CompleteSessions(g, cfg, key, pair, order[..n + 1], at, o) ==
        if before.tangled then before
        else
          var r := CompleteSession(before.graph, cfg, key, pair, order[n], at, o);
          r.(changed := before.changed || r.changed)
  {
    assert order[..n + 1][..n] == order[..n];
  }

  lemma {:induction false} StaysTangled(
    g: Graph, cfg: Config, key: ScopeKey, pair: EdgeKey, order: seq<Text>, n: nat, at: Time, o: Oracle)
    requires n <= |order| && CompleteSessions(g, cfg, key, pair, order[..n], at, o).tangled
    ensures CompleteSessions(g, cfg, key, pair, order, at, o).tangled
    decreases |order| - n
  {
    if n < |order| {
      NextSession(g, cfg, key, pair, order, n, at, o);
      StaysTangled(g, cfg, key, pair, order, n + 1, at, o);
    } else {
      assert order[..n] == order;
    }
  }

  lemma WithdrawNext(w: Work, cfg: Config, report: Report, obs: seq<ObserverReport>, n: nat, at: Time)
    requires n < |obs|
    ensures WithdrawAll(w, cfg, report, obs[..n + 1], at)
      == WithdrawOne(WithdrawAll(w, cfg, report, obs[..n], at), cfg, report, obs[n], at)
  {
    assert obs[..n + 1][..n] == obs[..n];
  }

  /** The edges in `todo` have yet to learn what is seen of them, and to be logged if it changed. */
  ghost predicate Logging(
    before: map<EdgeKey, Edge>, touched: map<EdgeKey, Option<Evidence>>, todo: set<EdgeKey>, edges: map<EdgeKey, Edge>,
    transitions: map<EdgeKey, Evidence>, cfg: Config, at: Time)
  {
    && todo <= touched.Keys && edges.Keys == before.Keys
    && (forall k | k in before ::
          edges[k] == if k in touched && k !in todo then Learn(before[k], cfg, at) else before[k])
    && (forall k :: k in transitions <==>
          k in touched && k in before && k !in todo && Changes(touched[k], EvidenceAt(before[k], cfg, at)))
    && (forall k | k in transitions :: transitions[k] == EvidenceAt(before[k], cfg, at))
  }

  lemma LogOne(
    before: map<EdgeKey, Edge>, touched: map<EdgeKey, Option<Evidence>>, todo: set<EdgeKey>, edges: map<EdgeKey, Edge>,
    transitions: map<EdgeKey, Evidence>, cfg: Config, at: Time, key: EdgeKey)
    requires Logging(before, touched, todo, edges, transitions, cfg, at) && key in todo && key in before
    ensures edges[key] == before[key]
    ensures var current := EvidenceAt(before[key], cfg, at);
      Logging(before, touched, todo - {key}, edges[key := edges[key].(lastKnown := Some(current))],
              if Changes(touched[key], current) then transitions[key := current] else transitions, cfg, at)
  {
  }

  lemma LogDone(
    before: map<EdgeKey, Edge>, touched: map<EdgeKey, Option<Evidence>>, edges: map<EdgeKey, Edge>,
    transitions: map<EdgeKey, Evidence>, cfg: Config, at: Time)
    requires Logging(before, touched, {}, edges, transitions, cfg, at) && touched.Keys <= before.Keys
    ensures edges == map k | k in before :: if k in touched.Keys then Learn(before[k], cfg, at) else before[k]
    ensures transitions ==
      map k | k in touched && Changes(touched[k], EvidenceAt(before[k], cfg, at)) :: EvidenceAt(before[k], cfg, at)
  {
  }

  /** Without the aliases that have expired, and on the nodes without their addresses. */
  lemma AddressesPruned(g: Graph, cfg: Config, now: Time, dropped: set<Alias>)
    requires dropped == set a | a in g.aliases && AddressExpired(g, cfg, a, now)
    ensures g.aliases - dropped == LiveAliases(g, cfg, now)
    ensures g.aliasSeen - dropped == LiveSeen(g, cfg, now)
    ensures (map n | n in g.nodes :: DropAddresses(g.nodes[n], TextsAt(g, dropped, n)))
      == WithLiveAddresses(g, cfg, now)
  {
    forall n | n in g.nodes ensures TextsAt(g, dropped, n) == ExpiredAddresses(g, cfg, n, now) {
      assert forall a | a in dropped :: a in g.aliases && AddressExpired(g, cfg, a, now);
      assert forall a | a in g.aliases && AddressExpired(g, cfg, a, now) :: a in dropped;
    }
  }

  lemma WholePrefix<T>(s: seq<T>)
    ensures s[..|s|] == s
  {
  }

  lemma RelayNext(w: Work, cfg: Config, report: Report, sessions: seq<SessionReport>, n: nat, at: Time, o: Oracle)
    requires n < |sessions|
    ensures RelayAll(w, cfg, report, sessions[..n + 1], at, o)
      == RelayOne(RelayAll(w, cfg, report, sessions[..n], at, o), cfg, report, sessions[n], at, o)
  {
    assert sessions[..n + 1][..n] == sessions[..n];
  }

  /** No path at all has the keys that PathOf gives up on, so they are not supported either. */
  lemma PathOfKey(key: Key, seen: set<Sighting>)
    ensures PreviousKey(PathOf(key)) == Some(key) || (PreviousKey(PathOf(key)).None? && key !in SupportedKeys(seen))
  {
    if PreviousKey(PathOf(key)) != Some(key) {
      forall s | s in seen ensures KeyIn(s, seen) != key { }
    }
  }

  lemma SeenAsListed(observed: map<NodeId, Provenance>, observations: seq<Provenance>)
    requires Indexes(observed, observations)
    ensures SeenBy(observed) == Sightings(observations)
    ensures observations == [] <==> observed == map[]
  {
    forall s | s in SeenBy(observed) ensures s in Sightings(observations) {
      var n :| n in observed && s == Sighting(observed[n].observer, observed[n].path);
      assert observed[n] in observations;
    }
    forall s | s in Sightings(observations) ensures s in SeenBy(observed) {
      var p :| p in observations && s == Sighting(p.observer, p.path);
      var i :| 0 <= i < |observations| && observations[i] == p;
      assert observed[p.observer] == p;
    }
    if observations != [] {
      assert observations[0].observer in observed;
    }
    if observed != map[] {
      assert observed.Keys != {};
      var n :| n in observed.Keys;
      assert observed[n] in observations;
    }
  }

  ghost function TextsAt(g: Graph, dropped: set<Alias>, node: NodeId): set<Text> {
    set a | a in dropped && a in g.aliases && g.aliases[a] == node :: a.text
  }

  /** Addresses expire by their own times, whichever reporters are gone. */
  lemma ReportersDoNotAge(g: Graph, reporters: map<ReporterId, Reporter>, cfg: Config, now: Time)
    ensures var h := g.(reporters := reporters);
      && LiveAliases(h, cfg, now) == LiveAliases(g, cfg, now)
      && LiveSeen(h, cfg, now) == LiveSeen(g, cfg, now)
      && WithLiveAddresses(h, cfg, now) == WithLiveAddresses(g, cfg, now)
  {
    var h := g.(reporters := reporters);
    forall a ensures AddressExpired(h, cfg, a, now) == AddressExpired(g, cfg, a, now) { }
    forall n | n in g.nodes ensures ExpiredAddresses(h, cfg, n, now) == ExpiredAddresses(g, cfg, n, now) { }
  }

  lemma {:induction false} DropNothing(addresses: seq<Text>)
    ensures WithoutAddresses(addresses, {}) == addresses
  {
    if addresses != [] {
      DropNothing(addresses[1..]);
    }
  }

  lemma {:induction false} DropOneMore(addresses: seq<Text>, dropped: set<Text>, text: Text)
    ensures WithoutAddresses(WithoutAddresses(addresses, dropped), {text})
      == WithoutAddresses(addresses, dropped + {text})
  {
    if addresses != [] {
      DropOneMore(addresses[1..], dropped, text);
      var rest := WithoutAddresses(addresses[1..], dropped);
      if addresses[0] !in dropped {
        assert ([addresses[0]] + rest)[1..] == rest;
        assert WithoutAddresses(addresses, dropped) == [addresses[0]] + rest;
      } else {
        assert WithoutAddresses(addresses, dropped) == [] + rest == rest;
        assert WithoutAddresses(addresses, dropped + {text}) ==
          [] + WithoutAddresses(addresses[1..], dropped + {text});
      }
    }
  }
}
