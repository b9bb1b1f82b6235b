/** What a relay scope says: which pair is in force, when it is beyond doubt, and what is inferred from it. */
module PairLaws {
  import opened Names
  import opened Canonical
  import opened Pairing

  // ---------------------------------------------------------------------------------------------
  // A scope over time
  // ---------------------------------------------------------------------------------------------

  /** A pair of nodes seen to talk through the relay. */
  datatype Sight = Sight(pair: EdgeKey, at: Time)

  function Watch(scope: RelayScope, cfg: Config, seen: seq<Sight>): RelayScope {
    if |seen| == 0 then scope
    else PairedScope(Watch(scope, cfg, seen[..|seen| - 1]), cfg, seen[|seen| - 1].pair, seen[|seen| - 1].at)
  }

  ghost predicate InTime(seen: seq<Sight>) {
    && (forall i | 0 <= i < |seen| :: seen[i].at > NEVER)
    && (forall i, j | 0 <= i < j < |seen| :: seen[i].at <= seen[j].at)
  }

  /** The pair first seen at `t` was seen again and again, and never lapsed in between. */
  ghost predicate Lasts(cfg: Config, seen: seq<Sight>, t: nat) {
    t < |seen| && forall j | t < j < |seen| :: Bridged(cfg, seen, t, j)
  }

  /** When `j` was seen, the pair of `t` had not lapsed. */
  ghost predicate Bridged(cfg: Config, seen: seq<Sight>, t: nat, j: nat)
    requires t < j < |seen|
  {
    exists i | t <= i < j :: seen[i].pair == seen[t].pair && seen[j].at - seen[i].at <= cfg.EvidenceWindow()
  }

  /** `at` is when the pair of `t`, or else some other pair, was last seen since `t`. */
  ghost predicate LastSight(seen: seq<Sight>, t: nat, same: bool, at: Time)
    requires t < |seen|
  {
    && (exists i | t <= i < |seen| :: (seen[i].pair == seen[t].pair) == same && seen[i].at == at)
    && (forall i | t <= i < |seen| && (seen[i].pair == seen[t].pair) == same :: seen[i].at <= at)
  }

  ghost predicate Rivalled(seen: seq<Sight>, t: nat)
    requires t < |seen|
  {
    exists i | t <= i < |seen| :: seen[i].pair != seen[t].pair
  }

  /** The scope's pair was taken at `t`; it remembers when that pair was last seen, and when a rival was. */
  ghost predicate TakenAt(scope: RelayScope, cfg: Config, seen: seq<Sight>, t: nat) {
    && Lasts(cfg, seen, t)
    && scope.pair == Some(seen[t].pair)
    && LastSight(seen, t, true, scope.pairAt)
    && if Rivalled(seen, t) then LastSight(seen, t, false, scope.conflictAt) else scope.conflictAt == NEVER
  }

  lemma TakenNow(scope: RelayScope, cfg: Config, seen: seq<Sight>)
    requires |seen| > 0
    requires var last := seen[|seen| - 1];
      scope.pair == Some(last.pair) && scope.pairAt == last.at && scope.conflictAt == NEVER
    ensures TakenAt(scope, cfg, seen, |seen| - 1)
  {
  }

  lemma LastsOn(cfg: Config, seen: seq<Sight>, t: nat, pairAt: Time)
    requires |seen| > 1 && Lasts(cfg, seen[..|seen| - 1], t)
    requires LastSight(seen[..|seen| - 1], t, true, pairAt) && seen[|seen| - 1].at - pairAt <= cfg.EvidenceWindow()
    ensures Lasts(cfg, seen, t)
  {
    var earlier := seen[..|seen| - 1];
    var i :| t <= i < |earlier| && (earlier[i].pair == earlier[t].pair) == true && earlier[i].at == pairAt;
    assert seen[i].pair == seen[t].pair && seen[i].at == pairAt;
    forall j | t < j < |seen| ensures Bridged(cfg, seen, t, j) {
      if j < |earlier| {
        assert Bridged(cfg, earlier, t, j);
        var k :| t <= k < j && earlier[k].pair == earlier[t].pair
          && earlier[j].at - earlier[k].at <= cfg.EvidenceWindow();
        assert seen[k].pair == seen[t].pair && seen[k].at == earlier[k].at;
      }
    }
  }

  /** One more sighting: if it is of the kind in question it is the latest, otherwise the latest is what it was. */
  lemma SightOn(seen: seq<Sight>, t: nat, same: bool, before: Time)
    requires |seen| > 1 && t < |seen| - 1 && InTime(seen)
    ensures (seen[|seen| - 1].pair == seen[t].pair) == same ==> LastSight(seen, t, same, seen[|seen| - 1].at)
    ensures (seen[|seen| - 1].pair == seen[t].pair) != same && LastSight(seen[..|seen| - 1], t, same, before) ==>
      LastSight(seen, t, same, before)
  {
    var earlier := seen[..|seen| - 1];
    if (seen[|seen| - 1].pair == seen[t].pair) != same && LastSight(earlier, t, same, before) {
      var i :| t <= i < |earlier| && (earlier[i].pair == earlier[t].pair) == same && earlier[i].at == before;
      assert (seen[i].pair == seen[t].pair) == same && seen[i].at == before;
      forall j | t <= j < |seen| && (seen[j].pair == seen[t].pair) == same ensures seen[j].at <= before {
        assert seen[j] == earlier[j];
      }
    }
  }

  lemma RivalsOn(seen: seq<Sight>, t: nat)
    requires |seen| > 1 && t < |seen| - 1
    ensures Rivalled(seen, t) <==> Rivalled(seen[..|seen| - 1], t) || seen[|seen| - 1].pair != seen[t].pair
  {
    var earlier := seen[..|seen| - 1];
    if Rivalled(earlier, t) {
      var i :| t <= i < |earlier| && earlier[i].pair != earlier[t].pair;
      assert seen[i].pair != seen[t].pair;
    }
    if Rivalled(seen, t) && seen[|seen| - 1].pair == seen[t].pair {
      var i :| t <= i < |seen| && seen[i].pair != seen[t].pair;
      assert earlier[i].pair != earlier[t].pair;
    }
  }

  lemma TakenStill(before: RelayScope, cfg: Config, seen: seq<Sight>, t: nat)
    requires |seen| > 1 && InTime(seen)
    requires TakenAt(before, cfg, seen[..|seen| - 1], t)
    requires before.pairAt != NEVER && seen[|seen| - 1].at - before.pairAt <= cfg.EvidenceWindow()
    ensures TakenAt(PairedScope(before, cfg, seen[|seen| - 1].pair, seen[|seen| - 1].at), cfg, seen, t)
  {
    LastsOn(cfg, seen, t, before.pairAt);
    SightOn(seen, t, true, before.pairAt);
    SightOn(seen, t, false, before.conflictAt);
    RivalsOn(seen, t);
  }

  lemma TakenIsTimed(scope: RelayScope, cfg: Config, seen: seq<Sight>, t: nat)
    requires InTime(seen) && TakenAt(scope, cfg, seen, t)
    ensures scope.pairAt > NEVER
  {
  }

  /** Over every history of sightings the pair in force is one that has not lapsed since it was taken, and the
      scope remembers when it and when a rival was last seen since then. */
  lemma {:induction false} PairInForce(start: RelayScope, cfg: Config, seen: seq<Sight>) returns (t: nat)
    requires start.pairAt == NEVER && |seen| > 0 && InTime(seen)
    ensures TakenAt(Watch(start, cfg, seen), cfg, seen, t)
  {
    var earlier, last := seen[..|seen| - 1], seen[|seen| - 1];
    var before := Watch(start, cfg, earlier);
    assert InTime(earlier);
    if |earlier| == 0 || last.at - before.pairAt > cfg.EvidenceWindow() {
      t := |earlier|;
      TakenNow(Watch(start, cfg, seen), cfg, seen);
    } else {
      t := PairInForce(start, cfg, earlier);
      TakenIsTimed(before, cfg, earlier, t);
      TakenStill(before, cfg, seen, t);
    }
  }

  ghost predicate SeenWithin(cfg: Config, seen: seq<Sight>, t: nat, same: bool, at: Time)
    requires t < |seen|
  {
    exists i | t <= i < |seen| :: (seen[i].pair == seen[t].pair) == same && at - seen[i].at <= cfg.EvidenceWindow()
  }

  /** A pair is beyond doubt exactly when it was seen within the window and, since it was taken, no other was. */
  lemma EstablishedIff(scope: RelayScope, cfg: Config, seen: seq<Sight>, t: nat, at: Time)
    requires InTime(seen) && TakenAt(scope, cfg, seen, t)
    ensures Established(scope, cfg, at) <==> SeenWithin(cfg, seen, t, true, at) && !SeenWithin(cfg, seen, t, false, at)
  {
    assert at - scope.pairAt <= cfg.EvidenceWindow() <==> SeenWithin(cfg, seen, t, true, at);
    if SeenWithin(cfg, seen, t, false, at) {
      assert Rivalled(seen, t);
    }
  }

  /** A rival seen before the pair was taken is forgotten, however recent: one that was seen within the window
      does not keep the pair from being beyond doubt. */
  lemma RivalForgotten(start: RelayScope, cfg: Config, p: EdgeKey, q: EdgeKey, r: EdgeKey)
    requires start.pairAt == NEVER && cfg.heartbeat > 0 && q != r && p != r
    ensures var seen := [Sight(p, 1), Sight(r, 1 + cfg.EvidenceWindow()), Sight(q, 2 + cfg.EvidenceWindow())];
      var scope := Watch(start, cfg, seen);
      Established(scope, cfg, seen[2].at) && scope.pair == Some(q) && seen[2].at - seen[1].at <= cfg.EvidenceWindow()
  {
    var seen := [Sight(p, 1), Sight(r, 1 + cfg.EvidenceWindow()), Sight(q, 2 + cfg.EvidenceWindow())];
    assert seen[..2][..1] == [seen[0]] && seen[..2][1] == seen[1] && seen[..1][..0] == [];
    assert Watch(start, cfg, [seen[0]]) == PairedScope(start, cfg, p, 1) by {
      assert [seen[0]][..0] == [];
    }
    assert Watch(start, cfg, seen[..2]) == PairedScope(PairedScope(start, cfg, p, 1), cfg, r, seen[1].at);
  }
}
