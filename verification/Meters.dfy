/** Traffic counters of peers and relay sessions (exporter/sink.go, changedSnapshotPeers;
    exporter/sink_relay.go, changedRelaySessions). A counter may restart at any time; what a peer really
    moved is the sum of its positive increments from one reading to the next. */
module Meters {
  import opened Names

  /** What a counter belongs to: a peer, or a relay session between two clients. */
  datatype Meter =
    | Peer(key: Text)
    | Session(vni: int, id: Text, source: Text, target: Text)

  datatype Bytes = Bytes(rx: nat, tx: nat)

  const NONE := Bytes(0, 0)

  type Counts = map<Meter, Bytes>

  function At(counts: Counts, m: Meter): Bytes {
    if m in counts then counts[m] else NONE
  }

  function Plus(a: Bytes, b: Bytes): Bytes {
    Bytes(a.rx + b.rx, a.tx + b.tx)
  }

  lemma PlusNone(a: Bytes)
    ensures Plus(a, NONE) == a && Plus(NONE, a) == a
  {
  }

  predicate Within(a: Bytes, b: Bytes) {
    a.rx <= b.rx && a.tx <= b.tx
  }

  /** snapshotCounterDelta: a counter that went back contributes nothing. */
  function Rise(previous: nat, current: nat): nat {
    if current < previous then 0 else current - previous
  }

  function Gained(previous: Bytes, current: Bytes): Bytes {
    Bytes(Rise(previous.rx, current.rx), Rise(previous.tx, current.tx))
  }

  // ---------------------------------------------------------------------------------------------
  // What was really moved
  // ---------------------------------------------------------------------------------------------

  /** The last reading of every counter, and the sum of its positive increments so far. */
  datatype Ledger = Ledger(seen: Counts, gain: Counts)

  const NO_LEDGER := Ledger(map[], map[])

  function Read(l: Ledger, counts: Counts): Ledger {
    Ledger(
      l.seen + counts,
      map m | m in l.gain.Keys + counts.Keys ::
        if m in counts && m in l.seen then Plus(At(l.gain, m), Gained(l.seen[m], counts[m])) else At(l.gain, m))
  }

  /** Since a baseline was taken, at a time when the sums stood at `mark`, no counter has risen further
      above it than its positive increments account for. */
  ghost predicate Covered(l: Ledger, baseline: Counts, mark: Counts) {
    forall m | m in baseline ::
      && m in l.seen
      && l.seen[m].rx + At(mark, m).rx <= baseline[m].rx + At(l.gain, m).rx
      && l.seen[m].tx + At(mark, m).tx <= baseline[m].tx + At(l.gain, m).tx
  }

  ghost predicate Reads(l: Ledger, latest: Counts) {
    forall m | m in latest :: m in l.seen && l.seen[m] == latest[m]
  }

  lemma ReadKeepsCovered(l: Ledger, baseline: Counts, mark: Counts, counts: Counts)
    requires Covered(l, baseline, mark)
    ensures Covered(Read(l, counts), baseline, mark)
    ensures Reads(Read(l, counts), counts)
    ensures forall m :: Within(At(l.gain, m), At(Read(l, counts).gain, m))
  {
  }

  // ---------------------------------------------------------------------------------------------
  // What is reported
  // ---------------------------------------------------------------------------------------------

  /** A report may claim for a counter at most its rise from the baseline to the latest reading. */
  ghost predicate Claims(deltas: Counts, baseline: Counts, latest: Counts) {
    forall m | m in deltas :: m in baseline && m in latest && Within(deltas[m], Gained(baseline[m], latest[m]))
  }

  /** Claims never exceed what was moved since the baseline. */
  lemma ClaimsAreCovered(l: Ledger, baseline: Counts, mark: Counts, latest: Counts, deltas: Counts)
    requires Covered(l, baseline, mark) && Reads(l, latest) && Claims(deltas, baseline, latest)
    requires forall m :: Within(At(mark, m), At(l.gain, m))
    ensures forall m :: Within(Plus(At(mark, m), At(deltas, m)), At(l.gain, m))
  {
    forall m ensures Within(Plus(At(mark, m), At(deltas, m)), At(l.gain, m)) {
      if m in deltas {
        assert l.seen[m] == latest[m];
      }
    }
  }

  function PeerDelta(previous: Counts, current: Counts, m: Meter): Bytes {
    if m in previous && m in current then Gained(previous[m], current[m]) else NONE
  }

  /** changedSnapshotPeers: peers known before, not control nodes, whose counters rose. */
  method ChangedPeers(previous: Counts, current: Counts, stables: map<Meter, Text>, controls: set<Text>)
    returns (deltas: Counts)
    ensures Claims(deltas, previous, current)
    ensures forall m :: m in deltas <==>
      m in previous && m in current && !(m in stables && stables[m] in controls)
        && PeerDelta(previous, current, m) != NONE
    ensures forall m | m in deltas :: deltas[m] == PeerDelta(previous, current, m)
  {
    deltas := map[];
    var todo := current.Keys;
    while todo != {}
      invariant todo <= current.Keys
      invariant forall m :: m in deltas <==>
        m in current && m !in todo && m in previous && !(m in stables && stables[m] in controls) &&
        PeerDelta(previous, current, m) != NONE
      invariant forall m | m in deltas :: deltas[m] == PeerDelta(previous, current, m)
    {
      var m :| m in todo;
      todo := todo - {m};
      if !(m in stables && stables[m] in controls) && m in previous {
        var rx, tx := Rise(previous[m].rx, current[m].rx), Rise(previous[m].tx, current[m].tx);
        if rx != 0 || tx != 0 {
          deltas := deltas[m := Bytes(rx, tx)];
        }
      }
    }
  }

  const MAX_INT64: int := 0x7fff_ffff_ffff_ffff

  predicate FitsProtocol(b: Bytes) {
    b.rx <= MAX_INT64 && b.tx <= MAX_INT64
  }

  /** A session that neither restarted nor stood still since the baseline. */
  predicate SessionMoved(previous: Counts, current: Counts, m: Meter) {
    && m in previous && m in current
    && previous[m].rx <= current[m].rx && previous[m].tx <= current[m].tx
    && previous[m] != current[m]
  }

  /** changedRelaySessions: one session out of the protocol's range and the whole reading is given up. */
  method ChangedSessions(previous: Counts, current: Counts) returns (deltas: Option<Counts>)
    ensures deltas.None? <==> exists m :: SessionMoved(previous, current, m) && !FitsProtocol(current[m])
    ensures deltas.Some? ==> Claims(deltas.value, previous, current)
    ensures deltas.Some? ==> forall m :: m in deltas.value <==> SessionMoved(previous, current, m)
    ensures deltas.Some? ==> forall m | m in deltas.value :: deltas.value[m] == PeerDelta(previous, current, m)
  {
    var moved: Counts := map[];
    var todo := current.Keys;
    while todo != {}
      invariant todo <= current.Keys
      invariant forall m :: m in moved <==> m !in todo && SessionMoved(previous, current, m)
      invariant forall m | m in moved ::
        moved[m] == PeerDelta(previous, current, m) && FitsProtocol(current[m])
    {
      var m :| m in todo;
      todo := todo - {m};
      if m in previous && previous[m].rx <= current[m].rx && previous[m].tx <= current[m].tx {
        var rx, tx := current[m].rx - previous[m].rx, current[m].tx - previous[m].tx;
        if rx != 0 || tx != 0 {
          assert SessionMoved(previous, current, m);
          if current[m].rx > MAX_INT64 || current[m].tx > MAX_INT64 || rx > MAX_INT64 || tx > MAX_INT64 {
            return None;
          }
          moved := moved[m := Bytes(rx, tx)];
        }
      }
    }
    deltas := Some(moved);
  }
}
