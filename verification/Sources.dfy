/** One source of the exporter, event by event (exporter/sink.go, handleEvent, applyOperation,
    rejectOperation, markDisconnected; exporter/sink_relay.go, resetRelayBaseline): what it reads, what it
    thinks the server holds, and what it has yet to withdraw. */
module Sources {
  import opened Names
  import opened Admission
  import opened Meters
  import opened Wire

  /** `inventory` is the hash of the identities in the snapshot; `stables` names peers by stable ID. */
  datatype Snapshot = Snapshot(
    observer: Id, inventory: Text, collectedAt: Time, counts: Counts, stables: map<Meter, Text>)

  const NO_SNAPSHOT := Snapshot(Id(0, EMPTY), EMPTY, NEVER, map[], map[])

  datatype RelaySnapshot = RelaySnapshot(collectedAt: Time, counts: Counts)

  datatype Ref = Ref(id: Id, generation: Text)

  datatype Relay = Relay(
    latest: RelaySnapshot, hasLatest: bool, baseline: RelaySnapshot, hasBaseline: bool, healthy: bool, dirty: bool)

  const NO_RELAY := Relay(RelaySnapshot(NEVER, map[]), false, RelaySnapshot(NEVER, map[]), false, false, false)

  datatype Source = Source(
    registration: nat,
    latest: Snapshot, hasLatest: bool,
    baseline: Snapshot, hasBaseline: bool,
    healthy: bool, dirty: bool, needsHello: bool,
    serverRef: Option<Ref>,
    uncertainRefs: seq<Ref>,
    withdrawals: seq<Ref>,
    withdrawing: bool, withdrawFailed: bool,
    lastReportAt: Time,
    relay: Relay)

  function NewSource(registration: nat, needsHello: bool): Source {
    Source(registration, NO_SNAPSHOT, false, NO_SNAPSHOT, false, false, false, needsHello, None, [], [], false, false,
           NEVER, NO_RELAY)
  }

  // ---------------------------------------------------------------------------------------------
  // References
  // ---------------------------------------------------------------------------------------------

  predicate Mentions(refs: seq<Ref>, id: Id) {
    exists i | 0 <= i < |refs| :: refs[i].id == id
  }

  /** appendObserverReference. */
  function AppendRef(refs: seq<Ref>, r: Ref): (result: seq<Ref>)
    ensures forall id :: Mentions(result, id) <==> Mentions(refs, id) || id == r.id
    ensures result != []
  {
    if Mentions(refs, r.id) then refs
    else
      assert forall i | 0 <= i < |refs| :: (refs + [r])[i] == refs[i];
      assert (refs + [r])[|refs|] == r;
      refs + [r]
  }

  lemma MentionsFirst(r: Ref, rest: seq<Ref>)
    ensures forall id :: Mentions([r] + rest, id) <==> id == r.id || Mentions(rest, id)
  {
    assert ([r] + rest)[0] == r;
    assert forall i | 0 <= i < |rest| :: ([r] + rest)[i + 1] == rest[i];
  }

  /** removeObserverReference. */
  function RemoveRef(refs: seq<Ref>, id: Id): (result: seq<Ref>)
    ensures forall x :: Mentions(result, x) <==> Mentions(refs, x) && x != id
  {
    if refs == [] then []
    else
      var rest := RemoveRef(refs[1..], id);
      assert refs == [refs[0]] + refs[1..];
      MentionsFirst(refs[0], refs[1..]);
      MentionsFirst(refs[0], rest);
      if refs[0].id == id then rest else [refs[0]] + rest
  }

  /** All references appended. */
  function AppendAll(refs: seq<Ref>, more: seq<Ref>): (result: seq<Ref>)
    decreases |more|
    ensures forall id :: Mentions(result, id) <==> Mentions(refs, id) || Mentions(more, id)
    ensures refs != [] ==> result != []
    ensures more == [] ==> result == refs
  {
    if more == [] then refs
    else
      assert more == [more[0]] + more[1..];
      MentionsFirst(more[0], more[1..]);
      AppendAll(AppendRef(refs, more[0]), more[1..])
  }

  /** The references that stay uncertain: those of the identity now observed. */
  function Retained(refs: seq<Ref>, current: Id): (result: seq<Ref>)
    ensures forall id :: Mentions(result, id) <==> Mentions(refs, id) && id == current
  {
    if refs == [] then []
    else
      var rest := Retained(refs[1..], current);
      assert refs == [refs[0]] + refs[1..];
      MentionsFirst(refs[0], refs[1..]);
      MentionsFirst(refs[0], rest);
      if refs[0].id == current then [refs[0]] + rest else rest
  }

  // ---------------------------------------------------------------------------------------------
  // Events
  // ---------------------------------------------------------------------------------------------

  /** A sample of the source. A changed identity sends the old one to be withdrawn before anything else. */
  function OnSnapshot(s: Source, snapshot: Snapshot): Source {
    var moved := s.serverRef.Some? && s.serverRef.value.id != snapshot.observer;
    var queued := if moved then AppendRef(s.withdrawals, s.serverRef.value) else s.withdrawals;
    var withdrawals := AppendAll(queued, RemoveRef(s.uncertainRefs, snapshot.observer));
    s.(healthy := true, latest := snapshot, hasLatest := true, dirty := true,
       baseline := if s.hasBaseline then s.baseline else snapshot,
       hasBaseline := true,
       serverRef := if moved then None else s.serverRef,
       uncertainRefs := Retained(s.uncertainRefs, snapshot.observer),
       withdrawals := withdrawals,
       needsHello := s.needsHello || !s.hasBaseline || withdrawals != [],
       relay := if withdrawals != [] then s.relay.(hasBaseline := false, dirty := false) else s.relay)
  }

  function OnFailure(s: Source): Source {
    s.(healthy := false, hasBaseline := false, dirty := false, needsHello := true)
  }

  function OnRelaySnapshot(s: Source, snapshot: RelaySnapshot): Source {
    s.(relay := Relay(
         snapshot, true,
         if s.relay.hasBaseline then s.relay.baseline else snapshot, true,
         true, s.relay.hasBaseline))
  }

  function OnRelayFailure(s: Source): Source {
    s.(relay := s.relay.(healthy := false, hasBaseline := false, dirty := false))
  }

  function OnRelayDisabled(s: Source): Source {
    s.(relay := s.relay.(healthy := false, hasLatest := false, hasBaseline := false, dirty := false))
  }

  /** Withdraw: everything the server may hold is queued, whether it answered for it or not. */
  function OnWithdraw(s: Source): Source {
    var queued := if s.serverRef.Some? then AppendRef(s.withdrawals, s.serverRef.value) else s.withdrawals;
    s.(withdrawing := true, healthy := false, dirty := false,
       serverRef := None, uncertainRefs := [], withdrawals := AppendAll(queued, s.uncertainRefs),
       relay := s.relay.(dirty := false))
  }

  // ---------------------------------------------------------------------------------------------
  // Operations and their outcomes
  // ---------------------------------------------------------------------------------------------

  datatype Operation = Operation(key: Key, kind: Kind, reference: Ref, deltas: Counts, snapshot: Snapshot)

  function ResetRelay(r: Relay): Relay {
    if r.hasLatest && r.healthy then r.(dirty := false, baseline := r.latest, hasBaseline := true)
    else r.(dirty := false, hasBaseline := false)
  }

  /** applyOperation. */
  function Confirm(s: Source, op: Operation, now: Time): Source {
    match op.kind
    case Withdrawal => s.(withdrawals := if s.withdrawals != [] then s.withdrawals[1..] else [])
    case Hello => s.(
      serverRef := Some(op.reference), uncertainRefs := RemoveRef(s.uncertainRefs, op.reference.id),
      needsHello := false, baseline := op.snapshot, hasBaseline := true, dirty := false, lastReportAt := now,
      relay := ResetRelay(s.relay))
    case InventoryUpdate => s.(
      serverRef := if s.serverRef.Some? then Some(s.serverRef.value.(generation := op.reference.generation)) else None,
      baseline := op.snapshot, hasBaseline := true, dirty := false, lastReportAt := now)
    case TrafficSample => s.(baseline := op.snapshot, hasBaseline := true, dirty := false, lastReportAt := now)
    case Heartbeat => s.(lastReportAt := now)
    case RelayUpdate => s
  }

  /** rejectOperation and rejectOversized: a refused withdrawal is given up. */
  function Reject(s: Source, op: Operation): Source {
    if op.kind == Withdrawal
    then s.(withdrawals := if s.withdrawals != [] then s.withdrawals[1..] else [],
            withdrawFailed := s.withdrawFailed || s.withdrawing)
    else s.(healthy := false, baseline := op.snapshot, hasBaseline := true, dirty := false)
  }

  /** A hello without an answer may have reached the server. */
  function Doubt(s: Source, op: Operation): Source {
    if op.kind == Hello then s.(uncertainRefs := AppendRef(s.uncertainRefs, op.reference)) else s
  }

  /** markDisconnected, for one source. */
  function Disconnect(s: Source): Source {
    if s.withdrawing then s
    else
      var t := s.(needsHello := true, relay := s.relay.(hasBaseline := false, dirty := false));
      if s.hasLatest then t.(baseline := s.latest, hasBaseline := true, dirty := true) else t
  }

  function ConfirmRelay(s: Source): Source {
    s.(relay := s.relay.(baseline := s.relay.latest, hasBaseline := true, dirty := false))
  }

  /** Which operation of a kind a source is due, but for traffic, which also needs a changed counter. */
  predicate Eligible(s: Source, kind: Kind, heartbeat: int, now: Time) {
    if kind == Withdrawal then s.withdrawals != []
    else
      && !s.withdrawing && s.withdrawals == [] && s.healthy && s.hasLatest
      && (kind == Hello <==> s.needsHello)
      && (kind != Hello ==> s.serverRef.Some?)
      && match kind
         case Hello => true
         case InventoryUpdate => s.dirty && s.latest.inventory != s.serverRef.value.generation
         case TrafficSample => s.dirty && s.latest.inventory == s.serverRef.value.generation
         case Heartbeat => !s.dirty && !(0 <= now - s.lastReportAt < heartbeat)
         case _ => false
  }

  function ReferenceFor(s: Source, kind: Kind): Ref
    requires kind == Withdrawal ==> s.withdrawals != []
    requires kind == Heartbeat ==> s.serverRef.Some?
  {
    if kind == Withdrawal then s.withdrawals[0]
    else Ref(s.latest.observer, if kind == Heartbeat then s.serverRef.value.generation else s.latest.inventory)
  }

  predicate RelayEligible(s: Source) {
    && !s.withdrawing && s.healthy && !s.needsHello && s.serverRef.Some?
    && s.relay.healthy && s.relay.hasLatest && s.relay.hasBaseline && s.relay.dirty
  }

  // ---------------------------------------------------------------------------------------------
  // What every event keeps
  // ---------------------------------------------------------------------------------------------

  /** Identities belong to one source each. */
  ghost predicate AllOf(refs: seq<Ref>, k: Key) {
    forall id | Mentions(refs, id) :: id.source == k
  }

  ghost predicate Kept(k: Key, s: Source) {
    && (s.serverRef.Some? ==> s.hasLatest && s.serverRef.value.id == s.latest.observer)
    && (s.hasLatest ==> s.latest.observer.source == k)
    && AllOf(s.uncertainRefs, k) && AllOf(s.withdrawals, k)
    && (s.healthy ==> s.hasLatest && s.hasBaseline) && (s.hasBaseline ==> s.hasLatest)
    && (!s.needsHello && !s.withdrawing ==> s.serverRef.Some? && s.hasBaseline && s.withdrawals == [])
    && (s.withdrawing ==> s.serverRef.None? && s.uncertainRefs == [] && !s.healthy)
    && (forall m | m in s.latest.counts :: m.Peer?) && (forall m | m in s.baseline.counts :: m.Peer?)
    && (forall m | m in s.relay.latest.counts :: m.Session?) && (forall m | m in s.relay.baseline.counts :: m.Session?)
    && (s.relay.hasBaseline ==> s.relay.hasLatest)
  }

  /** The source still knows that the server may own this observer on its behalf. */
  predicate Tracks(s: Source, id: Id) {
    (s.serverRef.Some? && s.serverRef.value.id == id) || Mentions(s.uncertainRefs, id) || Mentions(s.withdrawals, id)
  }

  predicate Connected(s: Source) {
    !s.needsHello && !s.withdrawing
  }

  lemma NewSourceIsKept(k: Key, registration: nat)
    ensures Kept(k, NewSource(registration, true))
    ensures forall id :: !Tracks(NewSource(registration, true), id)
    ensures forall id :: !Tracks(NewSource(registration, false), id)
    ensures Kept(k, OnWithdraw(NewSource(registration, false)))
  {
  }

  lemma OnSnapshotKeeps(k: Key, s: Source, snapshot: Snapshot)
    requires Kept(k, s) && !s.withdrawing
    requires snapshot.observer.source == k && forall m | m in snapshot.counts :: m.Peer?
    ensures Kept(k, OnSnapshot(s, snapshot))
    ensures forall id :: Tracks(OnSnapshot(s, snapshot), id) <==> Tracks(s, id)
    ensures Connected(OnSnapshot(s, snapshot)) ==> Connected(s) && OnSnapshot(s, snapshot).serverRef == s.serverRef
  {
  }

  lemma OnWithdrawKeeps(k: Key, s: Source)
    requires Kept(k, s)
    ensures Kept(k, OnWithdraw(s))
    ensures forall id :: Tracks(OnWithdraw(s), id) <==> Tracks(s, id)
    ensures forall id :: Tracks(s, id) <==> Mentions(OnWithdraw(s).withdrawals, id)
  {
  }

  lemma OtherEventsKeep(k: Key, s: Source, snapshot: RelaySnapshot)
    requires Kept(k, s) && forall m | m in snapshot.counts :: m.Session?
    ensures !s.withdrawing ==> Kept(k, OnFailure(s))
    ensures Kept(k, OnRelaySnapshot(s, snapshot))
    ensures Kept(k, OnRelayFailure(s)) && Kept(k, OnRelayDisabled(s))
    ensures Kept(k, Disconnect(s))
    ensures !Connected(Disconnect(s)) && !Connected(OnFailure(s))
    ensures forall id :: Tracks(Disconnect(s), id) <==> Tracks(s, id)
  {
  }

  /** The operation is the one its source is due. */
  ghost predicate Due(s: Source, op: Operation) {
    if op.kind == Withdrawal then s.withdrawals != [] && op.reference == s.withdrawals[0] && op.deltas == map[]
    else
      && !s.withdrawing && s.withdrawals == [] && s.healthy && op.snapshot == s.latest
      && (op.kind == Hello <==> s.needsHello)
      && op.kind != RelayUpdate
      && op.reference.id == s.latest.observer
      && (op.kind == TrafficSample || op.kind == Heartbeat ==> s.serverRef == Some(op.reference))
      && (if op.kind == TrafficSample then Claims(op.deltas, s.baseline.counts, s.latest.counts)
        else op.deltas == map[])
  }

  lemma ConfirmKeeps(k: Key, s: Source, op: Operation, now: Time)
    requires Kept(k, s) && Due(s, op)
    ensures Kept(k, Confirm(s, op, now))
    ensures forall id ::
      Tracks(s, id) && !(op.kind == Withdrawal && id == op.reference.id) ==> Tracks(Confirm(s, op, now), id)
    ensures op.kind == Hello ==> Tracks(Confirm(s, op, now), op.reference.id)
    ensures Connected(Confirm(s, op, now)) ==>
      if op.kind == Hello || op.kind == InventoryUpdate then Confirm(s, op, now).serverRef == Some(op.reference)
      else Connected(s) && Confirm(s, op, now).serverRef == s.serverRef
  {
    if op.kind == Withdrawal {
      assert forall id ::
        Mentions(s.withdrawals, id) <==> id == s.withdrawals[0].id || Mentions(s.withdrawals[1..], id);
    }
  }

  lemma RejectKeeps(k: Key, s: Source, op: Operation)
    requires Kept(k, s) && Due(s, op)
    ensures Kept(k, Reject(s, op))
    ensures forall id ::
      Tracks(s, id) && !(op.kind == Withdrawal && id == op.reference.id) ==> Tracks(Reject(s, op), id)
    ensures Connected(Reject(s, op)) ==> Connected(s) && Reject(s, op).serverRef == s.serverRef
  {
    if op.kind == Withdrawal {
      assert forall id ::
        Mentions(s.withdrawals, id) <==> id == s.withdrawals[0].id || Mentions(s.withdrawals[1..], id);
    }
  }

  lemma DoubtKeeps(k: Key, s: Source, op: Operation)
    requires Kept(k, s) && Due(s, op)
    ensures Kept(k, Doubt(s, op))
    ensures forall id | Tracks(s, id) :: Tracks(Doubt(s, op), id)
    ensures op.kind == Hello ==> Tracks(Doubt(s, op), op.reference.id)
  {
  }
}
