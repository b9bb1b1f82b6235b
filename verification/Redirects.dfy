/** Following redirects. The history store and the directional paths each have their own loop
    (internal/store/history_query.go, resolveNodeID; internal/domain/directional_paths.go,
    resolveDirectionalNodeID); both must name the node that the canonical graph calls the root. */
module Redirects {
  import opened Names
  import opened Canonical
  import opened Invariants

  /** The IDs passed on the way from `id`, none of them twice, and where the way stops: at an ID without
      a redirect, or at the first one passed before. */
  datatype Trail = Trail(passed: seq<NodeId>, stop: NodeId)

  predicate Follows(redirects: map<NodeId, NodeId>, id: NodeId, t: Trail) {
    && (forall i | 0 <= i < |t.passed| :: t.passed[i] in redirects)
    && (forall i | 0 <= i < |t.passed| - 1 :: redirects[t.passed[i]] == t.passed[i + 1])
    && (forall i, j | 0 <= i < j < |t.passed| :: t.passed[i] != t.passed[j])
    && (if t.passed == [] then t.stop == id
        else t.passed[0] == id && redirects[t.passed[|t.passed| - 1]] == t.stop)
  }

  predicate Stops(redirects: map<NodeId, NodeId>, t: Trail) {
    t.stop !in redirects || t.stop in t.passed
  }

  /** There is only one way to go. */
  lemma TrailIsUnique(redirects: map<NodeId, NodeId>, id: NodeId, s: Trail, t: Trail)
    requires Follows(redirects, id, s) && Stops(redirects, s)
    requires Follows(redirects, id, t) && Stops(redirects, t)
    ensures s == t
  {
    TrailsCoincide(redirects, id, s, t, if |s.passed| < |t.passed| then |s.passed| else |t.passed|);
    if |s.passed| < |t.passed| {
      StopsNoEarlier(redirects, id, s, t);
    } else if |t.passed| < |s.passed| {
      StopsNoEarlier(redirects, id, t, s);
    } else {
      assert s.passed == t.passed;
    }
  }

  lemma {:induction false} TrailsCoincide(redirects: map<NodeId, NodeId>, id: NodeId, s: Trail, t: Trail, n: nat)
    requires Follows(redirects, id, s) && Follows(redirects, id, t)
    requires n <= |s.passed| && n <= |t.passed|
    ensures s.passed[..n] == t.passed[..n]
  {
    if n > 0 {
      TrailsCoincide(redirects, id, s, t, n - 1);
      if n > 1 {
        assert s.passed[n - 2] == s.passed[..n - 1][n - 2] == t.passed[..n - 1][n - 2] == t.passed[n - 2];
      }
      assert s.passed[n - 1] == t.passed[n - 1];
    }
  }

  lemma StopsNoEarlier(redirects: map<NodeId, NodeId>, id: NodeId, s: Trail, t: Trail)
    requires Follows(redirects, id, s) && Follows(redirects, id, t)
    requires |s.passed| < |t.passed| && s.passed == t.passed[..|s.passed|]
    ensures !Stops(redirects, s)
  {
    var n := |s.passed|;
    if n > 0 {
      assert s.passed[n - 1] == t.passed[n - 1];
    }
    assert s.stop == t.passed[n];
    forall i | 0 <= i < n ensures s.passed[i] != s.stop {
      assert s.passed[i] == t.passed[i];
    }
  }

  predicate LeastOf(least: NodeId, ids: seq<NodeId>) {
    least in ids && forall id | id in ids :: least <= id
  }

  /** resolveNodeID: the end of the chain, or in a loop the least ID passed. */
  method ResolveNodeID(redirects: map<NodeId, NodeId>, start: NodeId) returns (id: NodeId, ghost t: Trail)
    ensures Follows(redirects, start, t) && Stops(redirects, t)
    ensures if t.stop !in redirects then id == t.stop else LeastOf(id, t.passed)
  {
    id := start;
    var visited: set<NodeId> := {};
    t := Trail([], start);
    while id in redirects
      invariant Follows(redirects, start, t) && t.stop == id
      invariant forall n :: n in visited <==> n in t.passed
      invariant visited <= redirects.Keys
      decreases redirects.Keys - visited
    {
      if id in visited {
        var terminal := id;
        var todo := visited;
        while todo != {}
          invariant todo <= visited && terminal in visited && terminal <= id
          invariant forall n | n in visited && n !in todo :: terminal <= n
        {
          var candidate :| candidate in todo;
          todo := todo - {candidate};
          if candidate < terminal {
            terminal := candidate;
          }
        }
        return terminal, t;
      }
      visited := visited + {id};
      t := Trail(t.passed + [id], redirects[id]);
      id := redirects[id];
    }
  }

  /** resolveDirectionalNodeID: the end of the chain, or in a loop the ID where it closes. */
  method ResolveDirectionalNodeID(redirects: map<NodeId, NodeId>, start: NodeId) returns (id: NodeId, ghost t: Trail)
    ensures Follows(redirects, start, t) && Stops(redirects, t)
    ensures id == t.stop
  {
    id := start;
    var seen: set<NodeId> := {};
    t := Trail([], start);
    while id in redirects
      invariant Follows(redirects, start, t) && t.stop == id
      invariant forall n :: n in seen <==> n in t.passed
      invariant seen <= redirects.Keys
      decreases redirects.Keys - seen
    {
      if id in seen {
        break;
      }
      seen := seen + {id};
      t := Trail(t.passed + [id], redirects[id]);
      id := redirects[id];
    }
  }

  /** What the two loops say about one ID. */
  ghost predicate Answers(redirects: map<NodeId, NodeId>, start: NodeId, store: NodeId, directional: NodeId) {
    exists t :: Follows(redirects, start, t) && Stops(redirects, t) && directional == t.stop &&
      if t.stop !in redirects then store == t.stop else LeastOf(store, t.passed)
  }

  /** On any table at all they agree about an ID exactly when its way ends, or closes at its least ID. */
  lemma AgreeIff(redirects: map<NodeId, NodeId>, start: NodeId, store: NodeId, directional: NodeId, t: Trail)
    requires Answers(redirects, start, store, directional)
    requires Follows(redirects, start, t) && Stops(redirects, t)
    ensures store == directional <==> t.stop !in redirects || LeastOf(t.stop, t.passed)
  {
    var u :| Follows(redirects, start, u) && Stops(redirects, u) && directional == u.stop &&
      if u.stop !in redirects then store == u.stop else LeastOf(store, u.passed);
    TrailIsUnique(redirects, start, t, u);
  }

  /** On the redirects of any graph the aggregator reaches, both answer the root, which is live for every
      ID it ever handed out. */
  lemma BothFindTheRoot(g: Graph, start: NodeId, store: NodeId, directional: NodeId)
    requires Rooted(g) && Answers(g.redirects, start, store, directional)
    ensures store == Root(g, start) && directional == Root(g, start)
    ensures start in Known(g) ==> store in g.nodes
  {
    var t :| Follows(g.redirects, start, t) && Stops(g.redirects, t) && directional == t.stop &&
      if t.stop !in g.redirects then store == t.stop else LeastOf(store, t.passed);
    if start in g.redirects {
      var u := Trail([start], g.redirects[start]);
      assert u.stop in g.nodes;
      TrailIsUnique(g.redirects, start, t, u);
    } else {
      TrailIsUnique(g.redirects, start, t, Trail([], start));
    }
  }

  /** A loop of two, entered at its greater ID, splits them: the disagreement is real. */
  lemma LoopsSplitThem(a: NodeId, b: NodeId)
    requires a < b
    ensures Answers(map[a := b, b := a], b, a, b)
  {
    var redirects := map[a := b, b := a];
    var t := Trail([b, a], b);
    assert Follows(redirects, b, t) && Stops(redirects, t);
    assert LeastOf(a, t.passed);
  }
}
