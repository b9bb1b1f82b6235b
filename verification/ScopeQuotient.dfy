/** Relay scopes after a merge (replaceRelayNodeReferencesLocked): the quotient of the scopes by the merged pair,
    whatever order the map is walked in. */
module ScopeQuotient {
  import opened Names
  import opened Canonical

  /** Scopes are keyed by their relay and session number, and their pairs have the smaller node first. */
  ghost predicate WellScoped(scopes: map<ScopeKey, RelayScope>) {
    forall k | k in scopes ::
      && ScopeKey(scopes[k].relay, scopes[k].vni) == k
      && (scopes[k].pair.Some? ==> scopes[k].pair.value.source <= scopes[k].pair.value.target)
  }

  function ScopeImage(k: ScopeKey, keep: NodeId, remove: NodeId): ScopeKey {
    ScopeKey(Repoint(k.relay, keep, remove), k.vni)
  }

  ghost function ScopesTo(from: set<ScopeKey>, image: ScopeKey, keep: NodeId, remove: NodeId): set<ScopeKey> {
    set k | k in from && ScopeImage(k, keep, remove) == image
  }

  /** A session of the merged scope is one of those with its ID, and none of them was seen later. */
  ghost predicate LatestSession(
    session: RelaySession, id: Text, scopes: map<ScopeKey, RelayScope>, from: set<ScopeKey>, keep: NodeId,
    remove: NodeId)
    requires from <= scopes.Keys
  {
    && (exists k | k in from ::
          id in scopes[k].sessions && session == RepointSession(scopes[k].sessions[id], keep, remove))
    && (forall k | k in from && id in scopes[k].sessions :: scopes[k].sessions[id].lastSeen <= session.lastSeen)
  }

  ghost predicate SessionsMerged(
    r: RelayScope, scopes: map<ScopeKey, RelayScope>, from: set<ScopeKey>, keep: NodeId, remove: NodeId)
    requires from <= scopes.Keys
  {
    && (forall k, id | k in from && id in scopes[k].sessions :: id in r.sessions)
    && (forall id | id in r.sessions :: LatestSession(r.sessions[id], id, scopes, from, keep, remove))
  }

  /** Times are the maxima, and the pair is that of a scope whose pair was seen last. */
  ghost predicate TimesMerged(
    r: RelayScope, scopes: map<ScopeKey, RelayScope>, from: set<ScopeKey>, keep: NodeId, remove: NodeId)
    requires from <= scopes.Keys
  {
    && (forall k | k in from ::
          scopes[k].lastSeen <= r.lastSeen && scopes[k].conflictAt <= r.conflictAt && scopes[k].pairAt <= r.pairAt)
    && (exists k | k in from :: scopes[k].lastSeen == r.lastSeen)
    && (exists k | k in from :: scopes[k].conflictAt == r.conflictAt)
    && (exists k | k in from :: scopes[k].pairAt == r.pairAt && r.pair == RepointScope(scopes[k], keep, remove).pair)
  }

  ghost predicate MergedFrom(
    r: RelayScope, image: ScopeKey, scopes: map<ScopeKey, RelayScope>, from: set<ScopeKey>, keep: NodeId,
    remove: NodeId)
    requires from <= scopes.Keys
  {
    && ScopeKey(r.relay, r.vni) == image
    && TimesMerged(r, scopes, from, keep, remove) && SessionsMerged(r, scopes, from, keep, remove)
  }

  /** One image of the quotient. */
  ghost predicate ScopeAtImage(
    rebuilt: map<ScopeKey, RelayScope>, scopes: map<ScopeKey, RelayScope>, from: set<ScopeKey>, image: ScopeKey,
    keep: NodeId, remove: NodeId)
    requires from <= scopes.Keys
  {
    && (image in rebuilt <==> ScopesTo(from, image, keep, remove) != {})
    && (image in rebuilt ==> MergedFrom(rebuilt[image], image, scopes, ScopesTo(from, image, keep, remove), keep,
      remove))
  }

  ghost predicate ScopeQuotientOf(
    rebuilt: map<ScopeKey, RelayScope>, scopes: map<ScopeKey, RelayScope>, from: set<ScopeKey>, keep: NodeId,
    remove: NodeId)
    requires from <= scopes.Keys
  {
    forall image :: ScopeAtImage(rebuilt, scopes, from, image, keep, remove)
  }

  lemma OneScope(scopes: map<ScopeKey, RelayScope>, k: ScopeKey, keep: NodeId, remove: NodeId)
    requires k in scopes && WellScoped(scopes)
    ensures MergedFrom(RepointScope(scopes[k], keep, remove), ScopeImage(k, keep, remove), scopes, {k}, keep, remove)
  {
    var r := RepointScope(scopes[k], keep, remove);
    forall id | id in r.sessions ensures LatestSession(r.sessions[id], id, scopes, {k}, keep, remove) {
      assert k in {k};
    }
    assert k in {k} && scopes[k].pairAt == r.pairAt;
  }

  lemma TimesOneMore(
    r: RelayScope, scopes: map<ScopeKey, RelayScope>, from: set<ScopeKey>, k: ScopeKey, keep: NodeId, remove: NodeId)
    requires from <= scopes.Keys && k in scopes && TimesMerged(r, scopes, from, keep, remove)
    ensures TimesMerged(MergeScopes(r, RepointScope(scopes[k], keep, remove)), scopes, from + {k}, keep, remove)
  {
    var seen :| seen in from && scopes[seen].lastSeen == r.lastSeen;
    var rival :| rival in from && scopes[rival].conflictAt == r.conflictAt;
    var paired :| paired in from && scopes[paired].pairAt == r.pairAt
      && r.pair == RepointScope(scopes[paired], keep, remove).pair;
    assert {seen, rival, paired, k} <= from + {k};
    var after := MergeScopes(r, RepointScope(scopes[k], keep, remove));
    assert scopes[if scopes[k].lastSeen > r.lastSeen then k else seen].lastSeen == after.lastSeen;
    assert scopes[if scopes[k].conflictAt > r.conflictAt then k else rival].conflictAt == after.conflictAt;
    assert scopes[if scopes[k].pairAt > r.pairAt then k else paired].pairAt == after.pairAt;
  }

  lemma SessionsOneMore(
    r: RelayScope, scopes: map<ScopeKey, RelayScope>, from: set<ScopeKey>, k: ScopeKey, keep: NodeId, remove: NodeId)
    requires from <= scopes.Keys && k in scopes && SessionsMerged(r, scopes, from, keep, remove)
    ensures SessionsMerged(MergeScopes(r, RepointScope(scopes[k], keep, remove)), scopes, from + {k}, keep, remove)
  {
    var carried := RepointScope(scopes[k], keep, remove);
    var after := MergeScopes(r, carried);
    forall id | id in after.sessions ensures LatestSession(after.sessions[id], id, scopes, from + {k}, keep, remove) {
      if id in carried.sessions && (id !in r.sessions || carried.sessions[id].lastSeen > r.sessions[id].lastSeen) {
        assert k in from + {k} && id in scopes[k].sessions;
        if id in r.sessions {
          assert LatestSession(r.sessions[id], id, scopes, from, keep, remove);
        }
      } else {
        assert LatestSession(r.sessions[id], id, scopes, from, keep, remove);
        var j :| j in from && id in scopes[j].sessions
          && r.sessions[id] == RepointSession(scopes[j].sessions[id], keep, remove);
        assert j in from + {k};
      }
    }
  }

  lemma ScopeOneMore(
    rebuilt: map<ScopeKey, RelayScope>, scopes: map<ScopeKey, RelayScope>, from: set<ScopeKey>, k: ScopeKey,
    image: ScopeKey, keep: NodeId, remove: NodeId)
    requires from <= scopes.Keys && k in scopes && WellScoped(scopes)
    requires ScopeAtImage(rebuilt, scopes, from, image, keep, remove)
    ensures ScopeAtImage(AddScope(rebuilt, scopes[k], keep, remove), scopes, from + {k}, image, keep, remove)
  {
    var after := AddScope(rebuilt, scopes[k], keep, remove);
    var before := ScopesTo(from, image, keep, remove);
    if ScopeImage(k, keep, remove) == image {
      assert ScopesTo(from + {k}, image, keep, remove) == before + {k};
      if image in rebuilt {
        TimesOneMore(rebuilt[image], scopes, before, k, keep, remove);
        SessionsOneMore(rebuilt[image], scopes, before, k, keep, remove);
      } else {
        assert before + {k} == {k};
        OneScope(scopes, k, keep, remove);
      }
    } else {
      assert ScopesTo(from + {k}, image, keep, remove) == before;
    }
  }

  /** Whatever order the scopes are walked in, the result is the quotient. */
  lemma {:induction false} RebuiltScopesAreQuotient(
    scopes: map<ScopeKey, RelayScope>, order: seq<ScopeKey>, keep: NodeId, remove: NodeId)
    requires WellScoped(scopes) && forall k | k in order :: k in scopes
    ensures ScopeQuotientOf(RebuildScopes(scopes, order, keep, remove), scopes, (set k | k in order), keep, remove)
  {
    if |order| > 0 {
      var before, last := order[..|order| - 1], order[|order| - 1];
      RebuiltScopesAreQuotient(scopes, before, keep, remove);
      var rebuilt, after := RebuildScopes(scopes, before, keep, remove), RebuildScopes(scopes, order, keep, remove);
      var from, more := (set k | k in before), (set k | k in order);
      assert more == from + {last};
      forall image ensures ScopeAtImage(after, scopes, more, image, keep, remove) {
        assert ScopeAtImage(rebuilt, scopes, from, image, keep, remove);
        ScopeOneMore(rebuilt, scopes, from, last, image, keep, remove);
      }
    }
  }

  ghost predicate SessionAvoids(s: RelaySession, node: NodeId) {
    s.source != node && s.target != node && forall c | c in s.clients :: s.clients[c] != node
  }

  /** No scope, pair, session or client names the node. */
  ghost predicate ScopesAvoid(scopes: map<ScopeKey, RelayScope>, node: NodeId) {
    forall k | k in scopes ::
      && k.relay != node && scopes[k].relay != node
      && (scopes[k].pair.Some? ==> scopes[k].pair.value.source != node && scopes[k].pair.value.target != node)
      && (forall id | id in scopes[k].sessions :: SessionAvoids(scopes[k].sessions[id], node))
  }

  /** What the quotient makes of one scope names the node that was absorbed nowhere. */
  lemma MergedAvoids(
    r: RelayScope, image: ScopeKey, scopes: map<ScopeKey, RelayScope>, from: set<ScopeKey>, keep: NodeId,
    remove: NodeId)
    requires from <= scopes.Keys && MergedFrom(r, image, scopes, from, keep, remove) && keep != remove
    requires forall k | k in from :: ScopeImage(k, keep, remove) == image
    ensures image.relay != remove
    ensures r.pair.Some? ==>
      r.pair.value.source != remove && r.pair.value.target != remove && r.pair.value.source <= r.pair.value.target
    ensures forall id | id in r.sessions :: SessionAvoids(r.sessions[id], remove)
  {
    var p :| p in from && scopes[p].pairAt == r.pairAt && r.pair == RepointScope(scopes[p], keep, remove).pair;
    forall id | id in r.sessions ensures SessionAvoids(r.sessions[id], remove) {
      assert LatestSession(r.sessions[id], id, scopes, from, keep, remove);
    }
  }

  /** After a merge nothing in a relay scope names the node that was absorbed, and scopes are still well keyed. */
  lemma ScopesNameSurvivors(scopes: map<ScopeKey, RelayScope>, order: seq<ScopeKey>, keep: NodeId, remove: NodeId)
    requires WellScoped(scopes) && Enumerates(order, scopes.Keys) && keep != remove
    ensures var rebuilt := RebuildScopes(scopes, order, keep, remove);
      ScopesAvoid(rebuilt, remove) && WellScoped(rebuilt)
  {
    var rebuilt := RebuildScopes(scopes, order, keep, remove);
    RebuiltScopesAreQuotient(scopes, order, keep, remove);
    var all := set k | k in order;
    forall image | image in rebuilt
      ensures image.relay != remove && ScopeKey(rebuilt[image].relay, rebuilt[image].vni) == image
      ensures var pair := rebuilt[image].pair;
        pair.Some? ==>
          pair.value.source != remove && pair.value.target != remove && pair.value.source <= pair.value.target
      ensures forall id | id in rebuilt[image].sessions :: SessionAvoids(rebuilt[image].sessions[id], remove)
    {
      assert ScopeAtImage(rebuilt, scopes, all, image, keep, remove);
      MergedAvoids(rebuilt[image], image, scopes, ScopesTo(all, image, keep, remove), keep, remove);
    }
  }

  /** A scope that is the only one with its image is carried over as it is, its nodes repointed. */
  lemma MergedAlone(
    r: RelayScope, image: ScopeKey, scopes: map<ScopeKey, RelayScope>, key: ScopeKey, keep: NodeId, remove: NodeId)
    requires key in scopes && MergedFrom(r, image, scopes, {key}, keep, remove)
    requires ScopeKey(scopes[key].relay, scopes[key].vni) == key && ScopeImage(key, keep, remove) == image
    ensures r == RepointScope(scopes[key], keep, remove)
  {
    var s := RepointScope(scopes[key], keep, remove);
    assert key in {key};
    forall id | id in r.sessions ensures id in s.sessions && r.sessions[id] == s.sessions[id] {
      assert LatestSession(r.sessions[id], id, scopes, {key}, keep, remove);
    }
    assert r.sessions == s.sessions;
  }

  /** A scope that no other is merged with moves alone. */
  lemma ScopeMovesAlone(
    scopes: map<ScopeKey, RelayScope>, order: seq<ScopeKey>, key: ScopeKey, keep: NodeId, remove: NodeId)
    requires WellScoped(scopes) && Enumerates(order, scopes.Keys) && key in scopes
    requires key.relay != remove && !(key.relay == keep && ScopeKey(remove, key.vni) in scopes)
    ensures var rebuilt := RebuildScopes(scopes, order, keep, remove);
      key in rebuilt && rebuilt[key] == RepointScope(scopes[key], keep, remove)
  {
    var rebuilt := RebuildScopes(scopes, order, keep, remove);
    RebuiltScopesAreQuotient(scopes, order, keep, remove);
    assert ScopeAtImage(rebuilt, scopes, (set k | k in order), key, keep, remove);
    assert (set k | k in order) == scopes.Keys;
    assert ScopesTo(scopes.Keys, key, keep, remove) == {key};
    MergedAlone(rebuilt[key], key, scopes, key, keep, remove);
  }
}
