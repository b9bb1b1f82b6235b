/** The snapshot sink (exporter/sink.go, exporter/sink_relay.go) as an object: its states, its sequence
    numbers, and the world they are sent into. Valid() is what holds between any two events of any run. */
module SnapshotSinks {
  import opened Names
  import opened Admission
  import opened Meters
  import opened Wire
  import opened Sources
  import opened Exporter
  import opened Sink

  /** Whether a flush may send: the retry delay runs, the capabilities request fails, the server lacks what the
      protocol needs, or it may. */
  datatype Link = Waiting | Unreachable | Incompatible | Ready

  /** What one send of a batch comes to. */
  datatype Outcome = Split | Down | Done(resync: bool)

  /** What the loop receives: the result of a sampler, the withdrawal or the registration of a source, or a tick,
      with what becomes of the envelopes sent in it. */
  datatype Input =
    | Result(key: Key, registration: nat, event: SourceEvent)
    | Withdrawn(key: Key, registration: nat)
    | Registering(key: Key, registration: nat, hasSource: bool)
    | Tick(link: Link, now: Time, fates: nat -> Fate, fits: seq<Operation> -> bool, relayFits: RelayOperation -> bool)

  const MAX_BATCH_OBSERVERS: nat := 64

  const MILLISECOND: int := 1_000_000
  const DEFAULT_HEARTBEAT: int := 60_000 * MILLISECOND

  class SnapshotSink {
    var states: States
    var sequence: nat
    var world: World
    var controls: set<Text>
    var heartbeat: int
    var registrations: map<Key, nat>
    var started: bool
    var running: bool
    /** The results of finished withdrawals: true is nil, false an error. */
    var results: map<(Key, nat), bool>

    /** Every envelope that was not refused, what each source's counters really moved, and the identities
        whose withdrawal the server refused. */
    ghost var sent: seq<Envelope>
    ghost var books: Books
    ghost var dropped: set<Id>

    /** What holds even while a failure is being reported. */
    ghost predicate Adrift()
      reads this
    {
      Floats(states, world, sequence, sent, books, dropped)
    }

    ghost predicate Valid()
      reads this
    {
      Stands(states, world, sequence, sent, books, dropped)
    }

    constructor ()
      ensures Valid()
      ensures states == map[] && registrations == map[] && sequence == 0 && !started && !running
    {
      states, sequence, world, controls, heartbeat := map[], 0, NEW_WORLD, {}, DEFAULT_HEARTBEAT;
      registrations, results, started, running := map[], map[], false, false;
      sent, books, dropped := [], Books(map[], map[]), {};
      NewWorldIsCoherent();
    }

    // -------------------------------------------------------------------------------------------
    // Events
    // -------------------------------------------------------------------------------------------

    /** handleEvent for the results of a sampler; those of a registration that is gone are ignored. */
    method HandleEvent(k: Key, registration: nat, event: SourceEvent)
      requires Valid() && WellFormed(k, event)
      modifies this`states, this`books
      ensures Valid()
      ensures
        var s := if k in old(states) then old(states)[k] else NewSource(registration, true);
        states ==
          if k !in registrations || registrations[k] != registration || s.withdrawing then old(states)
          else old(states)[k := OnEvent(s, event)]
      ensures
        var s := if k in old(states) then old(states)[k] else NewSource(registration, true);
        books ==
          if k !in registrations || registrations[k] != registration || s.withdrawing then old(books)
          else ReadBooks(old(books), k, s, event)
    {
      var s := if k in states then states[k] else NewSource(registration, true);
      if k !in registrations || registrations[k] != registration || s.withdrawing {
        return;
      }
      EventStands(states, world, sequence, sent, books, dropped, k, s, event);
      books := ReadBooks(books, k, s, event);
      states := states[k := OnEvent(s, event)];
    }

    /** The withdrawal of a registration: from here on its source only withdraws, and it has on its list
        everything that the server may own for it. */
    method HandleWithdraw(k: Key, registration: nat)
      requires Valid()
      modifies this`states
      ensures Valid()
      ensures states == old(states)[k := OnWithdraw(if k in old(states) then old(states)[k]
        else NewSource(registration, false))]
      ensures forall id: Id | id.source == k && MayBeOurs(world, id) ::
        Mentions(states[k].withdrawals, id) || id in dropped || LateClaim(world, id)
    {
      var s := if k in states then states[k] else NewSource(registration, false);
      WithdrawStands(states, world, sequence, sent, books, dropped, k, s);
      states := states[k := OnWithdraw(s)];
    }

    /** finalizeUnreportedWithdrawals: a source with nothing left to withdraw is done. Whatever the server may
        still own for it was leaked, in a refused withdrawal or a late arrival; otherwise it owns nothing and
        nothing on its way can change that. */
    method FinalizeWithdrawals()
      requires Valid()
      modifies this`states, this`registrations, this`results
      ensures Valid() && Finalized(old(states), states)
      ensures forall k | k in old(states) && k !in states :: Clean(world, dropped, k)
      ensures Reported(old(states), states, old(registrations), registrations, old(results), results)
    {
      var after, left, told := FinishEach(states, registrations, results);
      FinalizedStands(states, after, world, sequence, sent, books, dropped);
      states, registrations, results := after, left, told;
    }

    // -------------------------------------------------------------------------------------------
    // Outcomes of a batch
    // -------------------------------------------------------------------------------------------

    /** rejectOperation and rejectOversized. */
    method RejectOperation(op: Operation)
      requires Valid() && op.key in states && Due(states[op.key], op)
      modifies this`states, this`books, this`dropped
      ensures Valid()
      ensures states == old(states)[op.key := Reject(old(states)[op.key], op)]
      ensures dropped == RejectedIds(old(dropped), op)
    {
      RejectStands(states, world, sequence, sent, books, dropped, op);
      dropped := RejectedIds(dropped, op);
      Become(states[op.key := Reject(states[op.key], op)], RejectedBooks(books, op));
    }

    /** markDisconnected: after any failure, and whenever the server asks for a resync. */
    method MarkDisconnected()
      requires Adrift()
      modifies this`states, this`books
      ensures Valid() && Disconnected(old(states), states)
    {
      var after := DisconnectEach(states);
      DisconnectedStands(states, after, world, sequence, sent, books, dropped);
      Become(after, BooksCut(books, states));
    }

    // -------------------------------------------------------------------------------------------
    // Sending
    // -------------------------------------------------------------------------------------------

    /** A refused envelope is spent. */
    method Spend(ops: seq<Operation>, kind: Kind, fate: Fate)
      requires Valid() && AllDue(states, ops, kind)
      requires Send(world, Envelope(sequence + 1, kind, Entries(ops)), fate).1.Refusal?
      modifies this`sequence, this`world
      ensures Valid() && sequence == old(sequence) + 1
      ensures world == Send(old(world), Envelope(old(sequence) + 1, kind, Entries(ops)), fate).0
    {
      DueNamesItsSource(states, ops, kind);
      var e := Envelope(sequence + 1, kind, Entries(ops));
      RefusedStands(states, world, sequence, sent, books, dropped, e, fate);
      world, sequence := Send(world, e, fate).0, sequence + 1;
    }

    /** An envelope that failed. */
    method Fail(ops: seq<Operation>, kind: Kind, fate: Fate)
      requires Valid() && AllDue(states, ops, kind)
      requires var reply := Send(world, Envelope(sequence + 1, kind, Entries(ops)), fate).1;
        reply.NoReply? || (reply.Reply? && !reply.receipt.accepted)
      modifies this`states, this`sequence, this`world, this`sent
      ensures Adrift() && sequence == old(sequence) + 1
      ensures world == Send(old(world), Envelope(old(sequence) + 1, kind, Entries(ops)), fate).0
      ensures if Send(old(world), Envelope(old(sequence) + 1, kind, Entries(ops)), fate).1.NoReply?
              then Doubted(old(states), states, ops) else states == old(states)
    {
      DueNamesItsSource(states, ops, kind);
      var e := Envelope(sequence + 1, kind, Entries(ops));
      SendKeeps(world, e, fate);
      var (v, reply) := Send(world, e, fate);
      var after := states;
      if reply.NoReply? {
        after := DoubtEach(states, ops);
      } else {
        Undoubted(states, ops, kind);
      }
      DoubtedFloats(states, after, world, sequence, sent, books, dropped, e, fate, ops, kind);
      world, sequence, states, sent := v, sequence + 1, after, sent + [e];
    }

    /** How things stand after something that was not a send. */
    method Become(after: States, ghost booked: Books)
      requires Stands(after, world, sequence, sent, booked, dropped)
      modifies this`states, this`books
      ensures Valid() && states == after && books == booked
    {
      states, books := after, booked;
    }

    /** The next envelope was sent, and this is how things stand now. */
    method Advance(after: States, e: Envelope, fate: Fate, ghost booked: Books)
      requires Stands(after, Send(world, e, fate).0, sequence + 1, sent + [e], booked, dropped)
      modifies this`states, this`sequence, this`world, this`sent, this`books
      ensures Valid() && sequence == old(sequence) + 1
      ensures states == after && world == Send(old(world), e, fate).0 && sent == old(sent) + [e] && books == booked
    {
      states, world, sequence := after, Send(world, e, fate).0, sequence + 1;
      sent, books := sent + [e], booked;
    }

    /** An envelope that was accepted. */
    method Accept(ops: seq<Operation>, kind: Kind, fate: Fate, now: Time)
      requires Valid() && AllDue(states, ops, kind)
      requires var reply := Send(world, Envelope(sequence + 1, kind, Entries(ops)), fate).1;
        reply.Reply? && reply.receipt.accepted
      modifies this`states, this`sequence, this`world, this`sent, this`books
      ensures Valid() && sequence == old(sequence) + 1 && Confirmed(old(states), states, ops, now)
      ensures world == Send(old(world), Envelope(old(sequence) + 1, kind, Entries(ops)), fate).0
    {
      var after := ConfirmEach(states, ops, now);
      var e := Envelope(sequence + 1, kind, Entries(ops));
      ghost var booked := ConfirmedStands(states, after, world, sequence, sent, books, dropped, e, fate, ops, kind,
        now);
      Advance(after, e, fate, booked);
    }

    /** A refusal is final for a single operation only. */
    method Refuse(ops: seq<Operation>, kind: Kind, fate: Fate) returns (outcome: Outcome)
      requires Valid() && |ops| > 0 && AllDue(states, ops, kind)
      requires Send(world, Envelope(sequence + 1, kind, Entries(ops)), fate).1.Refusal?
      modifies this`states, this`sequence, this`world, this`books, this`dropped
      ensures Valid() && sequence == old(sequence) + 1
      ensures world == Send(old(world), Envelope(old(sequence) + 1, kind, Entries(ops)), fate).0
      ensures Turned(old(states), states, ops, outcome)
    {
      Spend(ops, kind, fate);
      if |ops| > 1 {
        return Split;
      }
      RejectOperation(ops[0]);
      return Done(false);
    }

    /** acceptReceipt: the control nodes are those of the last receipt, and the heartbeat interval that of the
        last receipt with one between ten seconds and ten minutes. */
    method AcceptReceipt(settings: Settings)
      requires Valid()
      modifies this`controls, this`heartbeat
      ensures Valid() && controls == settings.controls - {EMPTY}
      ensures heartbeat ==
        if 10_000 <= settings.milliseconds <= 600_000 then settings.milliseconds * MILLISECOND else old(heartbeat)
    {
      if 10_000 <= settings.milliseconds <= 600_000 {
        heartbeat := settings.milliseconds * MILLISECOND;
      }
      controls := settings.controls - {EMPTY};
    }

    /** One envelope for all operations: what becomes of it decides what becomes of their sources. */
    method SendOnce(ops: seq<Operation>, kind: Kind, now: Time, fate: Fate) returns (outcome: Outcome)
      requires Valid() && |ops| > 0 && AllDue(states, ops, kind)
      modifies this`states, this`sequence, this`world, this`sent, this`books, this`dropped, this`controls,
        this`heartbeat
      ensures if outcome.Down? then Adrift() else Valid()
      ensures sequence == old(sequence) + 1
      ensures var (v, reply) := Send(old(world), Envelope(old(sequence) + 1, kind, Entries(ops)), fate);
        && world == v && SettledAs(old(states), states, ops, kind, now, reply, outcome)
        && Announced(reply, fate.settings, old(controls), controls, old(heartbeat), heartbeat)
    {
      var reply := Send(world, Envelope(sequence + 1, kind, Entries(ops)), fate).1;
      if reply.Refusal? {
        outcome := Refuse(ops, kind, fate);
      } else if reply.NoReply? || !reply.receipt.accepted {
        Fail(ops, kind, fate);
        outcome := Down;
      } else {
        Accept(ops, kind, fate, now);
        AcceptReceipt(fate.settings);
        outcome := Done(reply.receipt.resync && kind != Hello);
      }
    }

    /** sendBatch: refused, a batch is split in two, down to the operation that is at fault. `fates` decides
        what becomes of each envelope, by sequence number. */
    method SendBatch(ops: seq<Operation>, kind: Kind, now: Time, fates: nat -> Fate)
        returns (resync: bool, failed: bool)
      requires Valid() && |ops| > 0 && AllDue(states, ops, kind)
      modifies this`states, this`sequence, this`world, this`sent, this`books, this`dropped, this`controls,
        this`heartbeat
      decreases |ops|
      ensures if failed then Adrift() else Valid()
      ensures Touches(old(states), states, ops) && sequence > old(sequence)
      ensures !failed ==> Handled(old(states), states, ops, now)
      ensures kind == Hello ==> !resync
    {
      ghost var first, reply := states, Send(world, Envelope(sequence + 1, kind, Entries(ops)), fates(sequence + 1)).1;
      var outcome := SendOnce(ops, kind, now, fates(sequence + 1));
      SettledIsHandled(first, states, ops, kind, now, reply, outcome);
      if !outcome.Split? {
        return outcome.Done? && outcome.resync, outcome.Down?;
      }
      var middle := |ops| / 2;
      ghost var before := states;
      HalvesDue(before, ops, kind, middle);
      resync, failed := SendBatch(ops[..middle], kind, now, fates);
      ghost var between := states;
      HalvesTouch(before, between, between, ops, middle);
      if failed {
        return false, true;
      }
      StillDue(before, between, ops[middle..], kind);
      var rightResync;
      rightResync, failed := SendBatch(ops[middle..], kind, now, fates);
      HalvesTouch(before, between, states, ops, middle);
      if !failed {
        HalvesHandled(before, between, states, ops, middle, now);
      }
      resync := resync || rightResync;
    }

    /** As many of the operations as fit one envelope; the first alone, rejected, if not even it fits. */
    method SendSome(ops: seq<Operation>, kind: Kind, now: Time, fates: nat -> Fate, fits: seq<Operation> -> bool)
      returns (count: nat, resync: bool, failed: bool)
      requires Valid() && |ops| > 0 && AllDue(states, ops, kind)
      modifies this`states, this`sequence, this`world, this`sent, this`books, this`dropped, this`controls,
        this`heartbeat
      ensures if failed then Adrift() else Valid()
      ensures 0 < count <= |ops| && Touches(old(states), states, ops[..count])
      ensures !failed ==> Handled(old(states), states, ops[..count], now)
    {
      count := BatchCount(ops, fits);
      if count == 0 {
        RejectedHandled(states, ops[..1], now);
        RejectOperation(ops[0]);
        return 1, false, false;
      }
      HalvesDue(states, ops, kind, count);
      resync, failed := SendBatch(ops[..count], kind, now, fates);
    }

    /** sendOperations: batch after batch, until the server fails or asks for a resync. */
    method SendOperations(
      all: seq<Operation>, kind: Kind, now: Time, fates: nat -> Fate, fits: seq<Operation> -> bool)
      returns (resync: bool, failed: bool)
      requires Valid() && AllDue(states, all, kind)
      modifies this`states, this`sequence, this`world, this`sent, this`books, this`dropped, this`controls,
        this`heartbeat
      decreases |all|
      ensures if failed then Adrift() else Valid()
      ensures Touches(old(states), states, all)
      ensures !failed && !resync ==> Handled(old(states), states, all, now)
    {
      if |all| == 0 {
        return false, false;
      }
      ghost var before := states;
      var count;
      count, resync, failed := SendSome(all, kind, now, fates, fits);
      ghost var between := states;
      HalvesDue(before, all, kind, count);
      HalvesTouch(before, between, between, all, count);
      if failed || resync {
        return;
      }
      StillDue(before, between, all[count..], kind);
      resync, failed := SendOperations(all[count..], kind, now, fates, fits);
      HalvesTouch(before, between, states, all, count);
      if !failed && !resync {
        HalvesHandled(before, between, states, all, count, now);
      }
    }

    /** operationsForKind: what each source is due. A source whose counters did not change moves its baseline
        instead. */
    method OperationsForKind(kind: Kind, now: Time) returns (ops: seq<Operation>)
      requires Valid() && kind != RelayUpdate
      modifies this`states, this`books
      ensures Valid() && AllDue(states, ops, kind)
      ensures Collected(old(states), states, ops, kind, controls, heartbeat, now)
    {
      var after;
      ops, after := CollectOperations(states, kind, controls, heartbeat, now);
      CollectedDue(states, after, ops, kind, controls, heartbeat, now);
      IdledStands(states, after, world, sequence, sent, books, dropped, true);
      Become(after, BooksIdled(states, after, books, true));
    }

    // -------------------------------------------------------------------------------------------
    // Relay updates
    // -------------------------------------------------------------------------------------------

    /** relayOperations. */
    method RelayOperations() returns (ops: seq<RelayOperation>)
      requires Valid()
      modifies this`states, this`books
      ensures Valid() && AllRelayDue(states, ops)
      ensures RelaysCollected(old(states), states, ops)
    {
      var after;
      ops, after := CollectRelayOperations(states);
      RelaysCollectedDue(states, after, ops);
      IdledStands(states, after, world, sequence, sent, books, dropped, false);
      Become(after, BooksIdled(states, after, books, false));
    }

    method AcceptRelay(op: RelayOperation, fate: Fate)
      requires Valid() && op.key in states && RelayDue(states[op.key], op)
      requires var reply := Send(world, RelayEnvelope(sequence + 1, op), fate).1; reply.Reply? && reply.receipt.accepted
      modifies this`states, this`sequence, this`world, this`sent, this`books
      ensures Valid() && states == old(states)[op.key := ConfirmRelay(old(states)[op.key])]
    {
      var after := RelayConfirmed(states, op);
      var e := RelayEnvelope(sequence + 1, op);
      ghost var booked := RelayConfirmedStands(states, after, world, sequence, sent, books, dropped, e, fate, op);
      Advance(after, e, fate, booked);
    }

    method FailRelay(op: RelayOperation, fate: Fate)
      requires Valid() && op.key in states && RelayDue(states[op.key], op)
      modifies this`sequence, this`world, this`sent
      ensures Adrift()
    {
      var e := RelayEnvelope(sequence + 1, op);
      RelayFailedFloats(states, world, sequence, sent, books, dropped, e, fate, op);
      world, sequence, sent := Send(world, e, fate).0, sequence + 1, sent + [e];
    }

    method RebaseRelay(k: Key)
      requires Valid() && k in states && states[k].relay.hasBaseline
      modifies this`states, this`books
      ensures Valid() && states == old(states)[k := IdleRelay(old(states)[k])]
    {
      var after := states[k := IdleRelay(states[k])];
      IdledStands(states, after, world, sequence, sent, books, dropped, false);
      Become(after, BooksIdled(states, after, books, false));
    }

    /** A sequence number spent on an envelope that was too large to send. */
    method SkipNumber()
      requires Valid()
      modifies this`sequence
      ensures Valid()
    {
      UnusedStands(states, world, sequence, sent, books, dropped);
      sequence := sequence + 1;
    }

    method SpendRelay(op: RelayOperation, fate: Fate)
      requires Valid() && Send(world, RelayEnvelope(sequence + 1, op), fate).1.Refusal?
      modifies this`sequence, this`world
      ensures Valid()
    {
      RefusedStands(states, world, sequence, sent, books, dropped, RelayEnvelope(sequence + 1, op), fate);
      world, sequence := Send(world, RelayEnvelope(sequence + 1, op), fate).0, sequence + 1;
    }

    /** Too large or refused, a relay update is given up, and the latest reading becomes the baseline. */
    method GiveUpRelay(op: RelayOperation, fate: Fate, fits: bool)
      requires Valid() && op.key in states && RelayDue(states[op.key], op)
      requires !fits || Send(world, RelayEnvelope(sequence + 1, op), fate).1.Refusal?
      modifies this`states, this`sequence, this`world, this`books
      ensures Valid() && states == old(states)[op.key := IdleRelay(old(states)[op.key])]
    {
      if fits {
        SpendRelay(op, fate);
      } else {
        SkipNumber();
      }
      RebaseRelay(op.key);
    }

    /** One relay update. */
    method SendRelay(op: RelayOperation, fate: Fate, fits: bool) returns (outcome: Outcome)
      requires Valid() && op.key in states && RelayDue(states[op.key], op)
      modifies this`states, this`sequence, this`world, this`sent, this`books, this`controls, this`heartbeat
      ensures if outcome.Down? then Adrift() else Valid()
      ensures var reply := Send(old(world), RelayEnvelope(old(sequence) + 1, op), fate).1;
        if !fits || reply.Refusal? then outcome == Done(false)
        else if reply.NoReply? || !reply.receipt.accepted then outcome.Down?
        else outcome == Done(reply.receipt.resync)
      ensures fits ==> var reply := Send(old(world), RelayEnvelope(old(sequence) + 1, op), fate).1;
        Announced(reply, fate.settings, old(controls), controls, old(heartbeat), heartbeat)
      ensures states == if outcome.Down? then old(states) else old(states)[op.key := IdleRelay(old(states)[op.key])]
    {
      var reply := Send(world, RelayEnvelope(sequence + 1, op), fate).1;
      if !fits || reply.Refusal? {
        GiveUpRelay(op, fate, fits);
        outcome := Done(false);
      } else if reply.NoReply? || !reply.receipt.accepted {
        FailRelay(op, fate);
        outcome := Down;
      } else {
        AcceptRelay(op, fate);
        AcceptReceipt(fate.settings);
        outcome := Done(reply.receipt.resync);
      }
    }

    /** What the rest of the round needs of one relay update: that it failed, or the baseline moved. */
    method SendNextRelay(op: RelayOperation, fate: Fate, fits: bool) returns (resync: bool, failed: bool)
      requires Valid() && op.key in states && RelayDue(states[op.key], op)
      modifies this`states, this`sequence, this`world, this`sent, this`books, this`controls, this`heartbeat
      ensures if failed then Adrift() else Valid()
      ensures states == if failed then old(states) else old(states)[op.key := IdleRelay(old(states)[op.key])]
      ensures failed ==> !resync
    {
      var outcome := SendRelay(op, fate, fits);
      return outcome.Done? && outcome.resync, outcome.Down?;
    }

    /** sendRelayOperations: one envelope for each source. */
    method SendRelayOperations(ops: seq<RelayOperation>, fates: nat -> Fate, fits: RelayOperation -> bool)
      returns (resync: bool, failed: bool)
      requires Valid() && AllRelayDue(states, ops)
      modifies this`states, this`sequence, this`world, this`sent, this`books, this`controls, this`heartbeat
      decreases |ops|
      ensures if failed then Adrift() else Valid()
      ensures RelaysSettled(old(states), states, ops, !failed && !resync)
    {
      if |ops| == 0 {
        return false, false;
      }
      ghost var before := states;
      resync, failed := SendNextRelay(ops[0], fates(sequence + 1), fits(ops[0]));
      if failed || resync {
        return;
      }
      RelaysStillDue(before, states, ops);
      ghost var between := states;
      resync, failed := SendRelayOperations(ops[1..], fates, fits);
      RelaysSettledOn(before, between, states, ops, !failed && !resync);
    }

    // -------------------------------------------------------------------------------------------
    // The flush
    // -------------------------------------------------------------------------------------------

    /** One round of one kind of operation; `stop` when the server failed or asks for a resync. */
    method FlushKind(kind: Kind, now: Time, fates: nat -> Fate, fits: seq<Operation> -> bool) returns (stop: bool)
      requires Valid() && kind != RelayUpdate
      modifies this`states, this`sequence, this`world, this`sent, this`books, this`dropped, this`registrations,
        this`results, this`controls, this`heartbeat
      ensures Valid() && states.Keys <= old(states).Keys
    {
      var ops := OperationsForKind(kind, now);
      if |ops| == 0 {
        return false;
      }
      var resync, failed := SendOperations(ops, kind, now, fates, fits);
      stop := resync || failed;
      if stop {
        MarkDisconnected();
      } else {
        FinalizeWithdrawals();
      }
    }

    /** flush: withdrawals first, then hellos, inventories, traffic and heartbeats, and relay updates last.
        Whatever happens, the invariant holds afterwards, and every source that is gone left nothing behind. */
    method Flush(link: Link, now: Time, fates: nat -> Fate, fits: seq<Operation> -> bool,
        relayFits: RelayOperation -> bool)
      returns (incompatible: bool)
      requires Valid()
      modifies this`states, this`sequence, this`world, this`sent, this`books, this`dropped, this`registrations,
        this`results, this`controls, this`heartbeat
      ensures Valid()
      ensures forall k | k !in states :: Clean(world, dropped, k)
      ensures states.Keys <= old(states).Keys
      ensures link != Ready ==> HeldBack(old(states), states, link)
      ensures incompatible == link.Incompatible?
    {
      incompatible := link.Incompatible?;
      FinalizeWithdrawals();
      var stop := link != Ready;
      if link == Unreachable {
        MarkDisconnected();
      }
      var kinds := [Withdrawal, Hello, InventoryUpdate, TrafficSample, Heartbeat];
      var n := 0;
      while n < |kinds| && !stop
        invariant 0 <= n <= |kinds| && Valid()
        invariant states.Keys <= old(states).Keys
        invariant link != Ready ==> stop && HeldBack(old(states), states, link)
      {
        stop := FlushKind(kinds[n], now, fates, fits);
        n := n + 1;
      }
      if !stop {
        var ops := RelayOperations();
        var resync, failed := SendRelayOperations(ops, fates, relayFits);
        if resync || failed {
          MarkDisconnected();
        }
      }
      GoneIsClean(states, world, sequence, sent, books, dropped);
    }

    /** Run: one input after another, in whatever order they come and whatever becomes of the envelopes. In
        the end nothing is orphaned but what was dropped or claimed late, beliefs are true unless another
        reporter took something over, and unless something was late no byte was applied twice. And unless
        something was dropped or late, a withdrawal that ended with nil left the server owning nothing of its
        source, until the source is registered and heard of again. */
    method Run(inputs: seq<Input>) returns (ran: bool)
      requires Valid()
      requires forall i | 0 <= i < |inputs| && inputs[i].Result? :: WellFormed(inputs[i].key, inputs[i].event)
      modifies this
      ensures Valid() && ran == !old(started) && started && (ran ==> !running)
      ensures forall id: Id | MayBeOurs(world, id) && id !in dropped && !LateClaim(world, id) :: TrackedBy(states, id)
      ensures world.taken == {} ==> forall k | k in states && Connected(states[k]) :: BelievesTruly(states[k], world)
      ensures world.late == {} ==>
        forall k, m :: Within(Total(world.applied, k, m), At(BookOf(books, k).ledger.gain, m))
      ensures dropped == {} && world.late == {} ==>
        forall r, id: Id | r in results && results[r] && r.0 !in states && id.source == r.0 :: !Owns(world.server, id)
    {
      ran := !started;
      var n, stopped := 0, started;
      started, running := true, running || ran;
      while n < |inputs| && !stopped
        invariant 0 <= n <= |inputs| && Valid() && started
      {
        match inputs[n] {
          case Result(k, registration, event) => HandleEvent(k, registration, event);
          case Withdrawn(k, registration) => HandleWithdraw(k, registration);
          case Registering(k, registration, hasSource) => var _ := Register(k, registration, hasSource);
          case Tick(link, now, fates, fits, relayFits) => stopped := Flush(link, now, fates, fits, relayFits);
        }
        n := n + 1;
      }
      if ran {
        Stop();
      }
      RunConcludes(states, world, sequence, sent, books, dropped);
      if dropped == {} && world.late == {} {
        NoOrphan(states, world, sequence, sent, books, dropped);
      }
    }

    /** stop: what is still being withdrawn is told so, unless it was told before. */
    method Stop()
      requires Valid()
      modifies this`running, this`results
      ensures Valid() && !running
      ensures results == old(results) +
        map k | k in states && states[k].withdrawing && (k, states[k].registration) !in old(results) ::
          (k, states[k].registration) := false
    {
      running := false;
      results := results +
        map k | k in states && states[k].withdrawing && (k, states[k].registration) !in results ::
          (k, states[k].registration) := false;
    }

    /** Register: a key and a source are needed, the key must be free, and the sink must not have stopped. */
    method Register(k: Key, registration: nat, hasSource: bool) returns (ok: bool)
      requires Valid()
      modifies this`registrations
      ensures Valid() && ok == (k != EMPTY && hasSource && k !in old(registrations) && !(started && !running))
      ensures registrations == if ok then old(registrations)[k := registration] else old(registrations)
    {
      ok := k != EMPTY && hasSource && k !in registrations && !(started && !running);
      if ok {
        registrations := registrations[k := registration];
      }
    }
  }

  // ---------------------------------------------------------------------------------------------
  // Batches and collections
  // ---------------------------------------------------------------------------------------------

  ghost predicate BelievesTruly(s: Source, w: World) {
    s.serverRef.Some? && OwnsAt(w, s.serverRef.value.id, s.serverRef.value.generation)
  }

  lemma RunConcludes(states: States, w: World, top: nat, sent: seq<Envelope>, books: Books, dropped: set<Id>)
    requires Stands(states, w, top, sent, books, dropped)
    ensures forall id: Id | MayBeOurs(w, id) && id !in dropped && !LateClaim(w, id) :: TrackedBy(states, id)
    ensures w.taken == {} ==> forall k | k in states && Connected(states[k]) :: BelievesTruly(states[k], w)
    ensures w.late == {} ==> forall k, m :: Within(Total(w.applied, k, m), At(BookOf(books, k).ledger.gain, m))
  {
    if w.taken == {} {
      forall k | k in states && Connected(states[k]) ensures BelievesTruly(states[k], w) {
        BeliefRefinesServer(states, w, top, sent, books, dropped, k);
      }
    }
    if w.late == {} {
      forall k, m ensures Within(Total(w.applied, k, m), At(BookOf(books, k).ledger.gain, m)) {
        BytesAtMostOnce(states, w, top, sent, books, dropped, k, m);
      }
    }
  }

  /** A flush that may not send does no more than finish withdrawals, and when the server cannot be reached
      each source that is left starts over. */
  ghost predicate HeldBack(before: States, after: States, link: Link) {
    && (forall k :: k in after <==> k in before && !Finished(before[k]))
    && (forall k | k in after :: after[k] == if link == Unreachable then Disconnect(before[k]) else before[k])
  }

  /** batchCount: how many of the operations fit one envelope. */
  method BatchCount(ops: seq<Operation>, fits: seq<Operation> -> bool) returns (count: nat)
    ensures count <= |ops| && count <= MAX_BATCH_OBSERVERS
    ensures forall n | 1 <= n <= count :: fits(ops[..n])
    ensures count < |ops| && count < MAX_BATCH_OBSERVERS ==> !fits(ops[..count + 1])
  {
    count := 0;
    while count < |ops| && count < MAX_BATCH_OBSERVERS
      invariant count <= |ops| && count <= MAX_BATCH_OBSERVERS
      invariant forall n | 1 <= n <= count :: fits(ops[..n])
    {
      if !fits(ops[..count + 1]) {
        return;
      }
      count := count + 1;
    }
  }

  /** Some counter of the source rose since its baseline, other than one of a control node. */
  predicate Moved(s: Source, controls: set<Text>) {
    exists m | m in s.latest.counts ::
      m in s.baseline.counts && !(m in s.latest.stables && s.latest.stables[m] in controls) &&
      PeerDelta(s.baseline.counts, s.latest.counts, m) != NONE
  }

  /** An eligible source gets an operation, but for traffic without change, which moves the baseline. */
  ghost predicate CollectedAs(
    s: Source, t: Source, told: bool, kind: Kind, controls: set<Text>, heartbeat: int, now: Time)
  {
    var eligible := Eligible(s, kind, heartbeat, now);
    var idle := kind == TrafficSample && !Moved(s, controls);
    (told <==> eligible && !idle) && t == if eligible && idle then Idle(s) else s
  }

  ghost predicate Collected(
    before: States, after: States, ops: seq<Operation>, kind: Kind, controls: set<Text>, heartbeat: int, now: Time)
  {
    && after.Keys == before.Keys && DistinctKeys(ops)
    && (forall k | k in before :: CollectedAs(before[k], after[k], IsFor(ops, k), kind, controls, heartbeat, now))
    && (forall i | 0 <= i < |ops| ::
          && ops[i].key in before && ops[i].kind == kind
          && OperationOf(before[ops[i].key], ops[i]))
  }

  /** The same while the sources in `todo` have yet to be asked. */
  ghost predicate Collecting(
    before: States, after: States, ops: seq<Operation>, kind: Kind, controls: set<Text>, heartbeat: int, now: Time,
    todo: set<Key>)
  {
    && todo <= before.Keys == after.Keys && DistinctKeys(ops)
    && (forall k | k in todo :: after[k] == before[k])
    && (forall k | k in before && k !in todo ::
          CollectedAs(before[k], after[k], IsFor(ops, k), kind, controls, heartbeat, now))
    && (forall i | 0 <= i < |ops| ::
          && ops[i].key in before && ops[i].key !in todo && ops[i].kind == kind
          && OperationOf(before[ops[i].key], ops[i]))
  }

  lemma Passed(
    before: States, after: States, ops: seq<Operation>, kind: Kind, controls: set<Text>, heartbeat: int, now: Time,
    todo: set<Key>, k: Key, t: Source)
    requires Collecting(before, after, ops, kind, controls, heartbeat, now, todo) && k in todo
    requires CollectedAs(before[k], t, false, kind, controls, heartbeat, now)
    ensures Collecting(before, after[k := t], ops, kind, controls, heartbeat, now, todo - {k})
  {
    assert !IsFor(ops, k);
  }

  lemma Told(
    before: States, after: States, ops: seq<Operation>, kind: Kind, controls: set<Text>, heartbeat: int, now: Time,
    todo: set<Key>, op: Operation)
    requires Collecting(before, after, ops, kind, controls, heartbeat, now, todo) && op.key in todo
    requires CollectedAs(before[op.key], before[op.key], true, kind, controls, heartbeat, now)
    requires op.kind == kind && OperationOf(before[op.key], op)
    ensures Collecting(before, after, ops + [op], kind, controls, heartbeat, now, todo - {op.key})
  {
    AppendFor(ops, op);
  }

  /** The operation says what its source has to say. */
  ghost predicate OperationOf(s: Source, op: Operation) {
    && (op.kind == Withdrawal ==> s.withdrawals != []) && (op.kind == Heartbeat ==> s.serverRef.Some?)
    && op.reference == ReferenceFor(s, op.kind) && op.snapshot == s.latest
    && (if op.kind == TrafficSample then Claims(op.deltas, s.baseline.counts, s.latest.counts) else op.deltas == map[])
  }

  /** What one eligible source has to say, if anything. */
  method OperationFor(k: Key, s: Source, kind: Kind, controls: set<Text>, heartbeat: int, now: Time)
    returns (op: Option<Operation>)
    requires kind != RelayUpdate && Eligible(s, kind, heartbeat, now)
    ensures op.None? <==> kind == TrafficSample && !Moved(s, controls)
    ensures op.Some? ==> op.value.key == k && op.value.kind == kind && OperationOf(s, op.value)
  {
    var deltas: Counts := map[];
    if kind == TrafficSample {
      deltas := ChangedPeers(s.baseline.counts, s.latest.counts, s.latest.stables, controls);
      if deltas.Keys == {} {
        return None;
      }
      var m :| m in deltas.Keys;
      assert m in s.latest.counts;
    }
    op := Some(Operation(k, kind, ReferenceFor(s, kind), deltas, s.latest));
  }

  method CollectOperations(states: States, kind: Kind, controls: set<Text>, heartbeat: int, now: Time)
    returns (ops: seq<Operation>, after: States)
    requires kind != RelayUpdate
    ensures Collected(states, after, ops, kind, controls, heartbeat, now)
  {
    ops, after := [], states;
    var todo := states.Keys;
    while todo != {}
      invariant Collecting(states, after, ops, kind, controls, heartbeat, now, todo)
    {
      var k :| k in todo;
      var s := states[k];
      if Eligible(s, kind, heartbeat, now) {
        var op := OperationFor(k, s, kind, controls, heartbeat, now);
        if op.None? {
          Passed(states, after, ops, kind, controls, heartbeat, now, todo, k, Idle(s));
          after := after[k := Idle(s)];
        } else {
          Told(states, after, ops, kind, controls, heartbeat, now, todo, op.value);
          ops := ops + [op.value];
        }
      } else {
        Passed(states, after, ops, kind, controls, heartbeat, now, todo, k, s);
        Rewritten(after, k);
      }
      todo := todo - {k};
    }
  }

  lemma AppendFor(ops: seq<Operation>, op: Operation)
    ensures forall k :: IsFor(ops + [op], k) <==> IsFor(ops, k) || k == op.key
  {
    assert (ops + [op])[|ops|] == op;
    assert forall i | 0 <= i < |ops| :: (ops + [op])[i] == ops[i];
  }

  lemma CollectedDue(
    before: States, after: States, ops: seq<Operation>, kind: Kind, controls: set<Text>, heartbeat: int, now: Time)
    requires Collected(before, after, ops, kind, controls, heartbeat, now) && AllKept(before) && kind != RelayUpdate
    ensures AllDue(after, ops, kind) && Idled(before, after)
  {
    forall i | 0 <= i < |ops| ensures Due(after[ops[i].key], ops[i]) {
      assert IsFor(ops, ops[i].key);
      assert Kept(ops[i].key, before[ops[i].key]);
    }
  }

  ghost predicate AllRelayDue(states: States, ops: seq<RelayOperation>) {
    && DistinctRelays(ops)
    && (forall i | 0 <= i < |ops| :: ops[i].key in states && RelayDue(states[ops[i].key], ops[i]))
  }

  /** Only sources with an operation moved on, and if `all` of them were sent, then each of these. */
  ghost predicate RelaysSettled(before: States, after: States, ops: seq<RelayOperation>, all: bool) {
    && after.Keys == before.Keys
    && forall k | k in before ::
         || (after[k] == before[k] && !(all && IsRelayFor(ops, k)))
         || (after[k] == IdleRelay(before[k]) && IsRelayFor(ops, k))
  }

  lemma RelaysStillDue(before: States, after: States, ops: seq<RelayOperation>)
    requires |ops| > 0 && AllRelayDue(before, ops)
    requires after == before[ops[0].key := IdleRelay(before[ops[0].key])]
    ensures AllRelayDue(after, ops[1..])
  {
    forall i | 0 <= i < |ops| - 1 ensures ops[1..][i].key in after && RelayDue(after[ops[1..][i].key], ops[1..][i]) {
      assert ops[1..][i] == ops[i + 1];
    }
  }

  lemma RelaysSettledOn(before: States, between: States, after: States, ops: seq<RelayOperation>, all: bool)
    requires |ops| > 0 && AllRelayDue(before, ops)
    requires between == before[ops[0].key := IdleRelay(before[ops[0].key])]
    requires RelaysSettled(between, after, ops[1..], all)
    ensures RelaysSettled(before, after, ops, all)
  {
    assert forall i | 0 <= i < |ops| - 1 :: ops[1..][i] == ops[i + 1];
    assert !IsRelayFor(ops[1..], ops[0].key);
    forall k ensures IsRelayFor(ops, k) <==> k == ops[0].key || IsRelayFor(ops[1..], k) {
      if IsRelayFor(ops, k) && k != ops[0].key {
        var i :| 0 <= i < |ops| && ops[i].key == k;
        assert ops[1..][i - 1].key == k;
      }
    }
  }

  /** Some session of the source moved, and all that did are within the protocol's range. */
  ghost predicate RelayTells(s: Source) {
    var before, now := s.relay.baseline.counts, s.relay.latest.counts;
    && (exists m :: SessionMoved(before, now, m))
    && (forall m | SessionMoved(before, now, m) :: FitsProtocol(now[m]))
  }

  /** The operation names every session that moved, with what it moved by. */
  ghost predicate RelayOperationOf(s: Source, op: RelayOperation) {
    var before, now := s.relay.baseline.counts, s.relay.latest.counts;
    && op.relay == s.latest.observer && Claims(op.deltas, before, now)
    && (forall m :: m in op.deltas <==> SessionMoved(before, now, m))
    && (forall m | m in op.deltas :: op.deltas[m] == PeerDelta(before, now, m))
  }

  predicate IsRelayFor(ops: seq<RelayOperation>, k: Key) {
    exists i | 0 <= i < |ops| :: ops[i].key == k
  }

  ghost predicate DistinctRelays(ops: seq<RelayOperation>) {
    forall i, j | 0 <= i < j < |ops| :: ops[i].key != ops[j].key
  }

  /** What becomes of one eligible source or another. */
  function RelayIdled(s: Source, told: bool): Source {
    if RelayEligible(s) && !told then IdleRelay(s) else s
  }

  /** An eligible source gets an operation if it has something to tell, and otherwise moves its baseline. */
  ghost predicate RelayCollected(s: Source, t: Source, told: bool) {
    (told <==> RelayEligible(s) && RelayTells(s)) && t == RelayIdled(s, RelayTells(s))
  }

  ghost predicate RelaysCollected(before: States, after: States, ops: seq<RelayOperation>) {
    && after.Keys == before.Keys && DistinctRelays(ops)
    && (forall k | k in before :: RelayCollected(before[k], after[k], IsRelayFor(ops, k)))
    && (forall i | 0 <= i < |ops| :: ops[i].key in before && RelayOperationOf(before[ops[i].key], ops[i]))
  }

  /** The same while the sources in `todo` have yet to be asked. */
  ghost predicate RelaysCollecting(before: States, after: States, ops: seq<RelayOperation>, todo: set<Key>) {
    && todo <= before.Keys == after.Keys && DistinctRelays(ops)
    && (forall k | k in todo :: after[k] == before[k])
    && (forall k | k in before && k !in todo :: RelayCollected(before[k], after[k], IsRelayFor(ops, k)))
    && (forall i | 0 <= i < |ops| ::
          ops[i].key in before && ops[i].key !in todo && RelayOperationOf(before[ops[i].key], ops[i]))
  }

  lemma RelayPassed(before: States, after: States, ops: seq<RelayOperation>, todo: set<Key>, k: Key, t: Source)
    requires RelaysCollecting(before, after, ops, todo) && k in todo && RelayCollected(before[k], t, false)
    ensures RelaysCollecting(before, after[k := t], ops, todo - {k})
  {
    assert !IsRelayFor(ops, k);
  }

  lemma RelayTold(before: States, after: States, ops: seq<RelayOperation>, todo: set<Key>, op: RelayOperation)
    requires RelaysCollecting(before, after, ops, todo) && op.key in todo && RelayOperationOf(before[op.key], op)
    requires RelayCollected(before[op.key], before[op.key], true)
    ensures RelaysCollecting(before, after, ops + [op], todo - {op.key})
  {
    AppendRelayFor(ops, op);
  }

  lemma RelaysCollectedDue(before: States, after: States, ops: seq<RelayOperation>)
    requires RelaysCollected(before, after, ops) && AllKept(before)
    ensures AllRelayDue(after, ops) && RelaysIdled(before, after)
  {
    forall i | 0 <= i < |ops| ensures RelayDue(after[ops[i].key], ops[i]) {
      assert IsRelayFor(ops, ops[i].key);
      assert Kept(ops[i].key, before[ops[i].key]);
    }
  }

  /** What one source has to tell, if anything. */
  method RelayOperationFor(k: Key, s: Source) returns (op: Option<RelayOperation>)
    ensures op.Some? <==> RelayTells(s)
    ensures op.Some? ==> op.value.key == k && RelayOperationOf(s, op.value)
  {
    var deltas := ChangedSessions(s.relay.baseline.counts, s.relay.latest.counts);
    if deltas.None? || deltas.value.Keys == {} {
      return None;
    }
    var m :| m in deltas.value.Keys;
    op := Some(RelayOperation(k, s.latest.observer, deltas.value));
  }

  method RelayConfirmed(states: States, op: RelayOperation) returns (after: States)
    requires op.key in states
    ensures after == states[op.key := ConfirmRelay(states[op.key])]
  {
    after := states[op.key := ConfirmRelay(states[op.key])];
  }

  method CollectRelayOperations(states: States) returns (ops: seq<RelayOperation>, after: States)
    ensures RelaysCollected(states, after, ops)
  {
    ops, after := [], states;
    var todo := states.Keys;
    while todo != {}
      invariant RelaysCollecting(states, after, ops, todo)
    {
      var k :| k in todo;
      var s := states[k];
      if RelayEligible(s) {
        var op := RelayOperationFor(k, s);
        if op.None? {
          RelayPassed(states, after, ops, todo, k, IdleRelay(s));
          after := after[k := IdleRelay(s)];
        } else {
          RelayTold(states, after, ops, todo, op.value);
          ops := ops + [op.value];
        }
      } else {
        RelayPassed(states, after, ops, todo, k, s);
        Rewritten(after, k);
      }
      todo := todo - {k};
    }
  }

  lemma Rewritten<K, V>(m: map<K, V>, k: K)
    requires k in m
    ensures m[k := m[k]] == m
  {
  }

  lemma AppendRelayFor(ops: seq<RelayOperation>, op: RelayOperation)
    ensures forall k :: IsRelayFor(ops + [op], k) <==> IsRelayFor(ops, k) || k == op.key
  {
    assert (ops + [op])[|ops|] == op;
    assert forall i | 0 <= i < |ops| :: (ops + [op])[i] == ops[i];
  }

  /** A sequence number that was spent on nothing. */
  lemma UnusedStands(states: States, w: World, top: nat, sent: seq<Envelope>, books: Books, dropped: set<Id>)
    requires Stands(states, w, top, sent, books, dropped)
    ensures Stands(states, w, top + 1, sent, books, dropped)
  {
    CoherentLater(w, top);
  }

  lemma GoneIsClean(states: States, w: World, top: nat, sent: seq<Envelope>, books: Books, dropped: set<Id>)
    requires Stands(states, w, top, sent, books, dropped)
    ensures forall k | k !in states :: Clean(w, dropped, k)
  {
    forall k, id: Id | k !in states && id.source == k && MayBeOurs(w, id) ensures id in dropped || LateClaim(w, id) {
      assert !TrackedBy(states, id);
    }
  }

  /** The registrations of finished sources are gone, and each has its result: nil unless a withdrawal failed. */
  ghost predicate Reported(
    before: States, after: States, registered: map<Key, nat>, left: map<Key, nat>,
    known: map<(Key, nat), bool>, told: map<(Key, nat), bool>)
  {
    && left == (map k | k in registered && !(k in before && k !in after) :: registered[k])
    && (forall r | r in told :: (r in known && told[r] == known[r]) || FinishedAs(before, after, r, told[r]))
    && (forall r | r in known :: r in told)
    && (forall k | k in before && k !in after ::
          (k, before[k].registration) in told && told[(k, before[k].registration)] == !before[k].withdrawFailed)
  }

  ghost predicate FinishedAs(before: States, after: States, r: (Key, nat), result: bool) {
    && r.0 in before && r.0 !in after
    && before[r.0].registration == r.1 && result == !before[r.0].withdrawFailed
  }

  method FinishEach(states: States, registered: map<Key, nat>, known: map<(Key, nat), bool>)
    returns (after: States, left: map<Key, nat>, told: map<(Key, nat), bool>)
    ensures Finalized(states, after) && Reported(states, after, registered, left, known, told)
  {
    after, left, told := states, registered, known;
    var todo := states.Keys;
    while todo != {}
      invariant todo <= after.Keys <= states.Keys
      invariant forall k | k in states :: k in after <==> k in todo || !Finished(states[k])
      invariant forall k | k in after :: after[k] == states[k]
      invariant Reported(states, after, registered, left, known, told)
    {
      var k :| k in todo;
      todo := todo - {k};
      if Finished(after[k]) {
        left := left - {k};
        told := told[(k, after[k].registration) := !after[k].withdrawFailed];
        after := after - {k};
      }
    }
  }

  /** Every operation of the batch was confirmed or, refused, rejected. */
  ghost predicate Handled(before: States, after: States, ops: seq<Operation>, now: Time) {
    forall i | 0 <= i < |ops| && ops[i].key in before && ops[i].key in after ::
      after[ops[i].key] == Confirm(before[ops[i].key], ops[i], now)
        || after[ops[i].key] == Reject(before[ops[i].key], ops[i])
  }

  lemma Undoubted(states: States, ops: seq<Operation>, kind: Kind)
    requires AllDue(states, ops, kind) && kind != Hello
    ensures Doubted(states, states, ops)
  {
  }

  /** Only the sources of the batch may have changed. */
  ghost predicate Touches(before: States, after: States, ops: seq<Operation>) {
    after.Keys == before.Keys && forall k | k in before && !IsFor(ops, k) :: after[k] == before[k]
  }

  /** A refused batch of one is rejected; a longer one is to be split. */
  ghost predicate Turned(before: States, after: States, ops: seq<Operation>, outcome: Outcome)
    requires |ops| > 0
  {
    if |ops| > 1 then outcome.Split? && after == before
    else
      && outcome == Done(false) && ops[0].key in before
      && after == before[ops[0].key := Reject(before[ops[0].key], ops[0])]
  }

  /** Only an accepted receipt announces anything. */
  ghost predicate Announced(
    reply: Reply, settings: Settings, before: set<Text>, controls: set<Text>, interval: int, heartbeat: int)
  {
    if reply.Reply? && reply.receipt.accepted
    then
      && controls == settings.controls - {EMPTY}
      && heartbeat == if 10_000 <= settings.milliseconds <= 600_000 then settings.milliseconds * MILLISECOND
        else interval
    else controls == before && heartbeat == interval
  }

  /** What an answer means: refused, the batch is rejected or split; unanswered, its hellos are in doubt; not
      accepted, nothing changed; accepted, each operation is confirmed, and a resync is asked for or not. */
  ghost predicate SettledAs(
    before: States, after: States, ops: seq<Operation>, kind: Kind, now: Time, reply: Reply, outcome: Outcome)
    requires |ops| > 0
  {
    if reply.Refusal? then Turned(before, after, ops, outcome)
    else if reply.NoReply? then outcome.Down? && Doubted(before, after, ops)
    else if !reply.receipt.accepted then outcome.Down? && after == before
    else outcome == Done(reply.receipt.resync && kind != Hello) && Confirmed(before, after, ops, now)
  }

  lemma SettledIsHandled(
    before: States, after: States, ops: seq<Operation>, kind: Kind, now: Time, reply: Reply, outcome: Outcome)
    requires |ops| > 0 && AllDue(before, ops, kind) && SettledAs(before, after, ops, kind, now, reply, outcome)
    ensures Touches(before, after, ops)
    ensures outcome.Done? ==> Handled(before, after, ops, now)
    ensures outcome.Split? ==> |ops| > 1 && after == before
    ensures outcome.Done? && outcome.resync ==> kind != Hello
  {
    if reply.Refusal? && |ops| == 1 {
      RejectedHandled(before, ops, now);
    }
  }

  lemma RejectedHandled(states: States, ops: seq<Operation>, now: Time)
    requires |ops| == 1 && ops[0].key in states
    ensures var after := states[ops[0].key := Reject(states[ops[0].key], ops[0])];
      Handled(states, after, ops, now) && Touches(states, after, ops)
  {
    assert IsFor(ops, ops[0].key);
  }

  lemma HalvesTouch(before: States, between: States, after: States, ops: seq<Operation>, middle: nat)
    requires middle <= |ops|
    requires forall k :: IsFor(ops, k) <==> IsFor(ops[..middle], k) || IsFor(ops[middle..], k)
    requires Touches(before, between, ops[..middle])
    requires after == between || Touches(between, after, ops[middle..])
    ensures Touches(before, after, ops)
  {
  }

  lemma HalvesDue(states: States, ops: seq<Operation>, kind: Kind, middle: nat)
    requires AllDue(states, ops, kind) && middle <= |ops|
    ensures AllDue(states, ops[..middle], kind) && AllDue(states, ops[middle..], kind)
    ensures forall k :: IsFor(ops, k) <==> IsFor(ops[..middle], k) || IsFor(ops[middle..], k)
    ensures forall k :: !(IsFor(ops[..middle], k) && IsFor(ops[middle..], k))
  {
    var left, right := ops[..middle], ops[middle..];
    assert forall i | 0 <= i < |left| :: left[i] == ops[i];
    assert forall i | 0 <= i < |right| :: right[i] == ops[middle + i];
    forall k ensures IsFor(ops, k) <==> IsFor(left, k) || IsFor(right, k) {
      if IsFor(ops, k) {
        var i :| 0 <= i < |ops| && ops[i].key == k;
        if i < middle { assert left[i].key == k; } else { assert right[i - middle].key == k; }
      }
    }
  }

  lemma StillDue(before: States, after: States, ops: seq<Operation>, kind: Kind)
    requires AllDue(before, ops, kind) && after.Keys == before.Keys
    requires forall k | k in after && IsFor(ops, k) :: after[k] == before[k]
    ensures AllDue(after, ops, kind)
  {
  }

  lemma HalvesHandled(before: States, between: States, after: States, ops: seq<Operation>, middle: nat, now: Time)
    requires middle <= |ops| && before.Keys == between.Keys == after.Keys
    requires forall k :: !(IsFor(ops[..middle], k) && IsFor(ops[middle..], k))
    requires Handled(before, between, ops[..middle], now) && Handled(between, after, ops[middle..], now)
    requires forall k | k in between && !IsFor(ops[..middle], k) :: between[k] == before[k]
    requires forall k | k in after && !IsFor(ops[middle..], k) :: after[k] == between[k]
    ensures Handled(before, after, ops, now)
  {
    var left, right := ops[..middle], ops[middle..];
    forall i | 0 <= i < |ops| && ops[i].key in before
      ensures after[ops[i].key] == Confirm(before[ops[i].key], ops[i], now)
        || after[ops[i].key] == Reject(before[ops[i].key], ops[i])
    {
      if i < middle {
        assert left[i] == ops[i] && IsFor(left, ops[i].key);
      } else {
        assert right[i - middle] == ops[i] && IsFor(right, ops[i].key);
      }
    }
  }

  lemma IsForOneMore(ops: seq<Operation>, n: nat)
    requires n < |ops|
    ensures forall k :: IsFor(ops[..n + 1], k) <==> IsFor(ops[..n], k) || k == ops[n].key
  {
    assert forall i | 0 <= i < n :: ops[..n + 1][i] == ops[..n][i];
    assert ops[..n + 1][n] == ops[n];
    forall k | IsFor(ops[..n], k) ensures IsFor(ops[..n + 1], k) {
      var i :| 0 <= i < n && ops[..n][i].key == k;
      assert ops[..n + 1][i].key == k;
    }
  }

  method DisconnectEach(states: States) returns (after: States)
    ensures Disconnected(states, after)
  {
    after := states;
    var todo := states.Keys;
    while todo != {}
      invariant todo <= states.Keys == after.Keys
      invariant forall k | k in states :: after[k] == if k in todo then states[k] else Disconnect(states[k])
    {
      var k :| k in todo;
      todo := todo - {k};
      after := after[k := Disconnect(after[k])];
    }
  }

  /** The sources of the first `n` operations are as in `made`, the others as before. */
  ghost predicate Replaced(before: States, after: States, ops: seq<Operation>, made: seq<Source>, n: nat)
    requires n <= |ops| == |made|
  {
    && after.Keys == before.Keys
    && (forall i | 0 <= i < n && ops[i].key in before :: after[ops[i].key] == made[i])
    && (forall k | k in before && !IsFor(ops[..n], k) :: after[k] == before[k])
  }

  lemma ReplacedOneMore(before: States, after: States, ops: seq<Operation>, made: seq<Source>, n: nat)
    requires n < |ops| == |made| && DistinctKeys(ops) && ops[n].key in before
    requires Replaced(before, after, ops, made, n)
    ensures after[ops[n].key] == before[ops[n].key]
    ensures Replaced(before, after[ops[n].key := made[n]], ops, made, n + 1)
  {
    assert !IsFor(ops[..n], ops[n].key);
    IsForOneMore(ops, n);
  }

  /** The sources of a batch, each after its own operation. */
  ghost function ConfirmedSources(states: States, ops: seq<Operation>, now: Time): (made: seq<Source>)
    requires forall i | 0 <= i < |ops| :: ops[i].key in states
    ensures |made| == |ops| && forall i | 0 <= i < |ops| :: made[i] == Confirm(states[ops[i].key], ops[i], now)
  {
    seq(|ops|, i requires 0 <= i < |ops| => Confirm(states[ops[i].key], ops[i], now))
  }

  ghost function DoubtedSources(states: States, ops: seq<Operation>): (made: seq<Source>)
    requires forall i | 0 <= i < |ops| :: ops[i].key in states
    ensures |made| == |ops| && forall i | 0 <= i < |ops| :: made[i] == Doubt(states[ops[i].key], ops[i])
  {
    seq(|ops|, i requires 0 <= i < |ops| => Doubt(states[ops[i].key], ops[i]))
  }

  lemma ReplacedAll(before: States, after: States, ops: seq<Operation>, made: seq<Source>)
    requires |made| == |ops| && Replaced(before, after, ops, made, |ops|)
    ensures after.Keys == before.Keys
    ensures forall i | 0 <= i < |ops| && ops[i].key in before :: after[ops[i].key] == made[i]
    ensures forall k | k in before && !IsFor(ops, k) :: after[k] == before[k]
  {
    assert ops[..|ops|] == ops;
  }

  lemma ConfirmedOneMore(states: States, after: States, ops: seq<Operation>, now: Time, n: nat)
    requires DistinctKeys(ops) && n < |ops| && forall i | 0 <= i < |ops| :: ops[i].key in states
    requires Replaced(states, after, ops, ConfirmedSources(states, ops, now), n)
    ensures ops[n].key in after
    ensures Replaced(states, after[ops[n].key := Confirm(after[ops[n].key], ops[n], now)], ops,
                     ConfirmedSources(states, ops, now), n + 1)
  {
    var made := ConfirmedSources(states, ops, now);
    ReplacedOneMore(states, after, ops, made, n);
    assert after[ops[n].key] == states[ops[n].key] && made[n] == Confirm(states[ops[n].key], ops[n], now);
  }

  lemma DoubtedOneMore(states: States, after: States, ops: seq<Operation>, n: nat)
    requires DistinctKeys(ops) && n < |ops| && forall i | 0 <= i < |ops| :: ops[i].key in states
    requires Replaced(states, after, ops, DoubtedSources(states, ops), n)
    ensures ops[n].key in after
    ensures Replaced(states, after[ops[n].key := Doubt(after[ops[n].key], ops[n])], ops, DoubtedSources(states, ops),
      n + 1)
  {
    var made := DoubtedSources(states, ops);
    ReplacedOneMore(states, after, ops, made, n);
    assert after[ops[n].key] == states[ops[n].key] && made[n] == Doubt(states[ops[n].key], ops[n]);
  }

  /** applyOperation for each of a batch. */
  method ConfirmEach(states: States, ops: seq<Operation>, now: Time) returns (after: States)
    requires DistinctKeys(ops) && forall i | 0 <= i < |ops| :: ops[i].key in states
    ensures Confirmed(states, after, ops, now)
  {
    after := states;
    for n := 0 to |ops|
      invariant Replaced(states, after, ops, ConfirmedSources(states, ops, now), n)
    {
      ConfirmedOneMore(states, after, ops, now, n);
      after := after[ops[n].key := Confirm(after[ops[n].key], ops[n], now)];
    }
    ReplacedAll(states, after, ops, ConfirmedSources(states, ops, now));
  }

  /** A batch without an answer: each hello in it becomes an uncertain reference. */
  method DoubtEach(states: States, ops: seq<Operation>) returns (after: States)
    requires DistinctKeys(ops) && forall i | 0 <= i < |ops| :: ops[i].key in states
    ensures Doubted(states, after, ops)
  {
    after := states;
    for n := 0 to |ops|
      invariant Replaced(states, after, ops, DoubtedSources(states, ops), n)
    {
      DoubtedOneMore(states, after, ops, n);
      after := after[ops[n].key := Doubt(after[ops[n].key], ops[n])];
    }
    ReplacedAll(states, after, ops, DoubtedSources(states, ops));
  }
}
