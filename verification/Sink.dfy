/** The snapshot sink's loop (exporter/sink.go, exporter/sink_relay.go) as it runs: events change one source
    at a time, a flush turns due sources into batches, and every batch is a send whose fate is open. */
module Sink {
  import opened Names
  import opened Admission
  import opened Meters
  import opened Wire
  import opened Sources
  import opened Exporter

  type States = map<Key, Source>

  // ---------------------------------------------------------------------------------------------
  // The three invariants
  // ---------------------------------------------------------------------------------------------

  ghost predicate AllKept(states: States) {
    forall k | k in states :: Kept(k, states[k])
  }

  ghost predicate TrackedBy(states: States, id: Id) {
    id.source in states && Tracks(states[id.source], id)
  }

  /** No orphans: what may be ours on the server is tracked by its source, or was leaked in one of two ways. */
  ghost predicate Tracking(states: States, w: World, dropped: set<Id>) {
    forall id | MayBeOurs(w, id) :: TrackedBy(states, id) || id in dropped || LateClaim(w, id)
  }

  /** Beliefs are true. */
  ghost predicate Believing(states: States, w: World) {
    forall k | k in states && Connected(states[k]) && states[k].serverRef.Some? ::
      Holds(w, states[k].serverRef.value.id, states[k].serverRef.value.generation, {})
  }

  ghost predicate Logged(w: World, sent: seq<Envelope>, top: nat) {
    && Increasing(sent)
    && (forall e | e in sent :: e.sequence <= top)
    && (forall e | e in w.network :: e in sent)
    && (forall a | a in w.applied :: a in sent)
  }

  ghost predicate Balanced(sent: seq<Envelope>, books: Books) {
    forall k :: Balances(BookOf(books, k), TotalOf(sent, k))
  }

  ghost predicate AllRead(states: States, books: Books) {
    forall k | k in states :: ReadsBoth(states[k], BookOf(books, k))
  }

  /** No byte twice: the next claim of every live source starts where what was claimed so far ends. */
  ghost predicate AllMetered(states: States, sent: seq<Envelope>, books: Books) {
    forall k | k in states && !states[k].withdrawing ::
      Metered(states[k], BookOf(books, k), TotalOf(sent, k))
  }

  // ---------------------------------------------------------------------------------------------
  // One source replaced
  // ---------------------------------------------------------------------------------------------

  lemma ReplaceTracking(states: States, w: World, dropped: set<Id>, k: Key, s: Source)
    requires Tracking(states, w, dropped)
    requires forall id: Id | id.source == k && TrackedBy(states, id) :: Tracks(s, id)
    ensures Tracking(states[k := s], w, dropped)
  {
    forall id | MayBeOurs(w, id) && !(id in dropped || LateClaim(w, id)) ensures TrackedBy(states[k := s], id) {
      assert TrackedBy(states, id);
    }
  }

  lemma ReplaceBelieving(states: States, w: World, k: Key, s: Source)
    requires Believing(states, w)
    requires Connected(s) && s.serverRef.Some?
      ==> k in states && Connected(states[k]) && states[k].serverRef == s.serverRef
    ensures Believing(states[k := s], w)
  {
    var after := states[k := s];
    forall j | j in after && Connected(after[j]) && after[j].serverRef.Some?
      ensures Holds(w, after[j].serverRef.value.id, after[j].serverRef.value.generation, {})
    {
      assert j in states && Connected(states[j]);
    }
  }

  /** The books with one book replaced. */
  ghost predicate Rebooked(books: Books, booked: Books, k: Key, b: Book) {
    BookOf(booked, k) == b && forall j | j != k :: BookOf(booked, j) == BookOf(books, j)
  }

  lemma ReplaceBook(states: States, sent: seq<Envelope>, books: Books, booked: Books, k: Key, s: Source, b: Book)
    requires Balanced(sent, books) && AllRead(states, books) && Rebooked(books, booked, k, b)
    requires Balances(b, TotalOf(sent, k)) && ReadsBoth(s, b)
    ensures Balanced(sent, booked) && AllRead(states[k := s], booked)
    ensures AllMetered(states, sent, books) && (!s.withdrawing ==> Metered(s, b, TotalOf(sent, k)))
      ==> AllMetered(states[k := s], sent, booked)
  {
    forall j ensures Balances(BookOf(booked, j), TotalOf(sent, j)) {
      assert Balances(BookOf(books, j), TotalOf(sent, j));
    }
  }

  // ---------------------------------------------------------------------------------------------
  // A batch
  // ---------------------------------------------------------------------------------------------

  predicate IsFor(ops: seq<Operation>, k: Key) {
    exists i | 0 <= i < |ops| :: ops[i].key == k
  }

  predicate DistinctKeys(ops: seq<Operation>) {
    forall i, j | 0 <= i < j < |ops| :: ops[i].key != ops[j].key
  }

  ghost predicate AllDue(states: States, ops: seq<Operation>, kind: Kind) {
    && DistinctKeys(ops)
    && forall i | 0 <= i < |ops| :: ops[i].kind == kind && ops[i].key in states && Due(states[ops[i].key], ops[i])
  }

  function Entries(ops: seq<Operation>): (entries: seq<Entry>)
    ensures |entries| == |ops|
    ensures forall i | 0 <= i < |ops| ::
      entries[i] == Entry(ops[i].reference.id, ops[i].reference.generation, ops[i].deltas)
  {
    seq(|ops|, i requires 0 <= i < |ops| => Entry(ops[i].reference.id, ops[i].reference.generation, ops[i].deltas))
  }

  /** Each operation names an identity of its own source. */
  lemma DueNamesItsSource(states: States, ops: seq<Operation>, kind: Kind)
    requires AllKept(states) && AllDue(states, ops, kind)
    ensures forall i | 0 <= i < |ops| :: ops[i].reference.id.source == ops[i].key
    ensures forall sequence :: DistinctIds(Envelope(sequence, kind, Entries(ops)))
  {
    forall i | 0 <= i < |ops| ensures ops[i].reference.id.source == ops[i].key {
      var s := states[ops[i].key];
      assert Kept(ops[i].key, s);
      if kind == Withdrawal {
        assert Mentions(s.withdrawals, s.withdrawals[0].id);
      }
    }
  }

  ghost predicate Rises(before: Meter -> Bytes, after: Meter -> Bytes, deltas: Counts) {
    forall m :: after(m) == Plus(before(m), At(deltas, m))
  }

  /** What a batch adds to the totals: to each of its sources the deltas of its operation. */
  lemma BatchTotal(sent: seq<Envelope>, e: Envelope, ops: seq<Operation>, i: nat)
    requires DistinctKeys(ops) && forall j | 0 <= j < |ops| :: ops[j].reference.id.source == ops[j].key
    requires e.entries == Entries(ops) && i < |ops|
    ensures Rises(TotalOf(sent, ops[i].key), TotalOf(sent + [e], ops[i].key), ops[i].deltas)
  {
    var k := ops[i].key;
    forall j | 0 <= j < |e.entries| && j != i ensures e.entries[j].id.source != k {
      assert e.entries[j].id.source == ops[j].key;
    }
    forall m ensures TotalOf(sent + [e], k)(m) == Plus(TotalOf(sent, k)(m), At(ops[i].deltas, m)) {
      TotalOneMore(sent, e, k, m);
      EntryTotal(e.entries, i, k, m);
    }
  }

  lemma NoBatchTotal(sent: seq<Envelope>, e: Envelope, ops: seq<Operation>, k: Key)
    requires forall j | 0 <= j < |ops| :: ops[j].reference.id.source == ops[j].key
    requires e.entries == Entries(ops) && !IsFor(ops, k)
    ensures Rises(TotalOf(sent, k), TotalOf(sent + [e], k), map[])
  {
    forall j | 0 <= j < |e.entries| ensures e.entries[j].id.source != k {
      assert e.entries[j].id.source == ops[j].key;
    }
    forall m ensures TotalOf(sent + [e], k)(m) == Plus(TotalOf(sent, k)(m), NONE) {
      TotalOneMore(sent, e, k, m);
      NoEntryTotal(e.entries, k, m);
    }
  }

  /** Whatever becomes of the batch, it claims no more than was moved. */
  lemma SentBalances(
    states: States, sent: seq<Envelope>, books: Books, e: Envelope, ops: seq<Operation>,
    kind: Kind)
    requires AllKept(states) && AllDue(states, ops, kind) && e.entries == Entries(ops)
    requires Balanced(sent, books) && AllRead(states, books) && AllMetered(states, sent, books)
    ensures Balanced(sent + [e], books)
  {
    DueNamesItsSource(states, ops, kind);
    forall k ensures Balances(BookOf(books, k), TotalOf(sent + [e], k)) {
      assert Balances(BookOf(books, k), TotalOf(sent, k));
      if IsFor(ops, k) {
        var i :| 0 <= i < |ops| && ops[i].key == k;
        assert Kept(k, states[k]);
        BatchTotal(sent, e, ops, i);
        ClaimBalances(states[k], ops[i], BookOf(books, k), TotalOf(sent, k), TotalOf(sent + [e], k));
      } else {
        NoBatchTotal(sent, e, ops, k);
      }
    }
  }

  /** The sources of a batch after it is accepted, and the rest as they were. */
  ghost predicate Confirmed(before: States, after: States, ops: seq<Operation>, now: Time) {
    && after.Keys == before.Keys
    && (forall i | 0 <= i < |ops| && ops[i].key in before ::
      after[ops[i].key] == Confirm(before[ops[i].key], ops[i], now))
    && (forall k | k in before && !IsFor(ops, k) :: after[k] == before[k])
  }

  ghost predicate Doubted(before: States, after: States, ops: seq<Operation>) {
    && after.Keys == before.Keys
    && (forall i | 0 <= i < |ops| && ops[i].key in before :: after[ops[i].key] == Doubt(before[ops[i].key], ops[i]))
    && (forall k | k in before && !IsFor(ops, k) :: after[k] == before[k])
  }

  ghost function BooksAfter(books: Books, ops: seq<Operation>, kind: Kind): Books {
    books.(marks := map k | k in books.marks.Keys + (set i | 0 <= i < |ops| :: ops[i].key) ::
      if IsFor(ops, k) then BookAfter(BookOf(books, k), kind).mark else BookOf(books, k).mark)
  }

  lemma BooksAfterAt(books: Books, ops: seq<Operation>, kind: Kind, k: Key)
    ensures BookOf(BooksAfter(books, ops, kind), k) ==
      if IsFor(ops, k) then BookAfter(BookOf(books, k), kind) else BookOf(books, k)
  {
  }

  lemma ConfirmedMetersAt(
    states: States, sent: seq<Envelope>, books: Books, e: Envelope, ops: seq<Operation>, kind: Kind, i: nat,
    now: Time)
    requires AllKept(states) && AllDue(states, ops, kind) && e.entries == Entries(ops) && i < |ops|
    requires Balanced(sent + [e], books) && AllRead(states, books) && AllMetered(states, sent, books)
    ensures var k := ops[i].key;
      var t, b, total := Confirm(states[k], ops[i], now), BookAfter(BookOf(books, k), kind), TotalOf(sent + [e], k);
      Balances(b, total) && ReadsBoth(t, b) && (!t.withdrawing ==> Metered(t, b, total))
  {
    var k := ops[i].key;
    DueNamesItsSource(states, ops, kind);
    BatchTotal(sent, e, ops, i);
    assert Balances(BookOf(books, k), TotalOf(sent + [e], k));
    ConfirmMeters(states[k], ops[i], now, BookOf(books, k), TotalOf(sent, k), TotalOf(sent + [e], k));
  }

  lemma UnconfirmedMetersAt(
    states: States, sent: seq<Envelope>, books: Books, e: Envelope, ops: seq<Operation>, kind: Kind, k: Key)
    requires AllKept(states) && AllDue(states, ops, kind) && e.entries == Entries(ops)
    requires k in states && !IsFor(ops, k) && !states[k].withdrawing && AllMetered(states, sent, books)
    ensures Metered(states[k], BookOf(books, k), TotalOf(sent + [e], k))
  {
    DueNamesItsSource(states, ops, kind);
    NoBatchTotal(sent, e, ops, k);
    forall m ensures TotalOf(sent + [e], k)(m) == TotalOf(sent, k)(m) {
      PlusNone(TotalOf(sent, k)(m));
    }
  }

  lemma ConfirmedMeters(
    states: States, after: States, sent: seq<Envelope>, books: Books, e: Envelope,
    ops: seq<Operation>, kind: Kind, now: Time)
    requires AllKept(states) && AllDue(states, ops, kind) && e.entries == Entries(ops)
    requires Balanced(sent, books) && AllRead(states, books) && AllMetered(states, sent, books)
    requires Confirmed(states, after, ops, now)
    ensures var booked := BooksAfter(books, ops, kind);
      && Balanced(sent + [e], booked)
      && AllRead(after, booked)
      && AllMetered(after, sent + [e], booked)
  {
    SentBalances(states, sent, books, e, ops, kind);
    var booked := BooksAfter(books, ops, kind);
    forall k
      ensures Balances(BookOf(booked, k), TotalOf(sent + [e], k))
      ensures k in after ==> ReadsBoth(after[k], BookOf(booked, k))
      ensures k in after && !after[k].withdrawing ==> Metered(after[k], BookOf(booked, k), TotalOf(sent + [e], k))
    {
      BooksAfterAt(books, ops, kind, k);
      if IsFor(ops, k) {
        var i :| 0 <= i < |ops| && ops[i].key == k;
        ConfirmedMetersAt(states, sent, books, e, ops, kind, i, now);
      } else {
        assert Balances(BookOf(books, k), TotalOf(sent + [e], k));
        if k in states && !states[k].withdrawing {
          UnconfirmedMetersAt(states, sent, books, e, ops, kind, k);
        }
      }
    }
  }

  lemma ConfirmedKept(states: States, after: States, ops: seq<Operation>, kind: Kind, now: Time)
    requires AllKept(states) && AllDue(states, ops, kind) && Confirmed(states, after, ops, now)
    ensures AllKept(after)
  {
    forall k | k in after ensures Kept(k, after[k]) {
      if IsFor(ops, k) {
        var i :| 0 <= i < |ops| && ops[i].key == k;
        ConfirmKeeps(k, states[k], ops[i], now);
      }
    }
  }

  lemma ConfirmedTracks(
    states: States, after: States, w: World, v: World, dropped: set<Id>, e: Envelope,
    ops: seq<Operation>, kind: Kind, now: Time)
    requires AllKept(states) && AllDue(states, ops, kind) && Confirmed(states, after, ops, now)
    requires e.kind == kind && e.entries == Entries(ops)
    requires Tracking(states, w, dropped) && w.late <= v.late
    requires forall id | MayBeOurs(v, id) :: MayBeOurs(w, id) || ClaimsId(e, id) || LateClaim(v, id)
    requires kind == Withdrawal ==> Settled(v, e)
    ensures Tracking(after, v, dropped)
  {
    forall id | MayBeOurs(v, id) && id !in dropped && !LateClaim(v, id) ensures TrackedBy(after, id) {
      assert !LateClaim(w, id);
      if ClaimsId(e, id) {
        ConfirmedTracksClaim(states, after, e, ops, kind, now, id);
      } else {
        assert TrackedBy(states, id);
        if kind == Withdrawal {
          forall i | 0 <= i < |ops| ensures ops[i].reference.id != id {
            assert e.entries[i].id == ops[i].reference.id;
          }
        }
        ConfirmedStillTracks(states, after, ops, kind, now, id);
      }
    }
  }

  lemma ConfirmedTracksClaim(
    states: States, after: States, e: Envelope, ops: seq<Operation>, kind: Kind, now: Time, id: Id)
    requires AllKept(states) && AllDue(states, ops, kind) && Confirmed(states, after, ops, now)
    requires e.kind == kind && e.entries == Entries(ops) && ClaimsId(e, id)
    ensures TrackedBy(after, id)
  {
    var i :| 0 <= i < |e.entries| && e.entries[i].id == id;
    DueNamesItsSource(states, ops, kind);
    ConfirmKeeps(ops[i].key, states[ops[i].key], ops[i], now);
  }

  lemma ConfirmedStillTracks(states: States, after: States, ops: seq<Operation>, kind: Kind, now: Time, id: Id)
    requires AllKept(states) && AllDue(states, ops, kind) && Confirmed(states, after, ops, now)
    requires TrackedBy(states, id)
    requires kind == Withdrawal ==> forall i | 0 <= i < |ops| :: ops[i].reference.id != id
    ensures TrackedBy(after, id)
  {
    if IsFor(ops, id.source) {
      var i :| 0 <= i < |ops| && ops[i].key == id.source;
      ConfirmKeeps(id.source, states[id.source], ops[i], now);
    }
  }

  lemma ConfirmedBelieves(
    states: States, after: States, w: World, e: Envelope, fate: Fate,
    ops: seq<Operation>, kind: Kind, now: Time)
    requires AllKept(states) && AllDue(states, ops, kind) && Confirmed(states, after, ops, now)
    requires e.kind == kind && e.entries == Entries(ops)
    requires e.sequence > 0 && Coherent(w, e.sequence - 1) && Believing(states, w)
    requires Send(w, e, fate).1.Reply? && Send(w, e, fate).1.receipt.accepted
    ensures Believing(after, Send(w, e, fate).0)
  {
    DueNamesItsSource(states, ops, kind);
    assert e == Envelope(e.sequence, kind, Entries(ops));
    assert DistinctIds(e);
    forall k | k in after && Connected(after[k]) && after[k].serverRef.Some?
      ensures Holds(Send(w, e, fate).0, after[k].serverRef.value.id, after[k].serverRef.value.generation, {})
    {
      if IsFor(ops, k) {
        var i :| 0 <= i < |ops| && ops[i].key == k;
        ConfirmedBelievesAt(states, k, w, e, fate, ops, kind, i, now);
      } else {
        UnconfirmedBelievesAt(states, k, w, e, fate, ops, kind);
      }
    }
  }

  lemma UnconfirmedBelievesAt(
    states: States, k: Key, w: World, e: Envelope, fate: Fate, ops: seq<Operation>, kind: Kind)
    requires AllKept(states) && AllDue(states, ops, kind) && k in states && !IsFor(ops, k)
    requires Connected(states[k]) && states[k].serverRef.Some?
    requires e.kind == kind && e.entries == Entries(ops) && DistinctIds(e)
    requires e.sequence > 0 && Coherent(w, e.sequence - 1) && Believing(states, w)
    requires Send(w, e, fate).1.Reply? && Send(w, e, fate).1.receipt.accepted
    ensures Holds(Send(w, e, fate).0, states[k].serverRef.value.id, states[k].serverRef.value.generation, {})
  {
    DueNamesItsSource(states, ops, kind);
    assert Kept(k, states[k]);
    forall i | 0 <= i < |e.entries| ensures e.entries[i].id != states[k].serverRef.value.id {
      assert e.entries[i].id.source == ops[i].key;
    }
    StillHolds(states, k, w, e, fate);
  }

  lemma ConfirmedBelievesAt(
    states: States, k: Key, w: World, e: Envelope, fate: Fate, ops: seq<Operation>, kind: Kind, i: nat, now: Time)
    requires AllKept(states) && AllDue(states, ops, kind) && i < |ops| && k == ops[i].key
    requires e.kind == kind && e.entries == Entries(ops) && DistinctIds(e)
    requires e.sequence > 0 && Coherent(w, e.sequence - 1) && Believing(states, w)
    requires Send(w, e, fate).1.Reply? && Send(w, e, fate).1.receipt.accepted
    ensures var t := Confirm(states[k], ops[i], now);
      Connected(t) && t.serverRef.Some? ==> Holds(Send(w, e, fate).0, t.serverRef.value.id,
        t.serverRef.value.generation, {})
  {
    var t := Confirm(states[k], ops[i], now);
    ConfirmKeeps(k, states[k], ops[i], now);
    if Connected(t) && t.serverRef.Some? {
      if kind == Hello || kind == InventoryUpdate {
        assert e.entries[i].id == t.serverRef.value.id && e.entries[i].generation == t.serverRef.value.generation;
        SendEstablishes(w, e, fate, i);
      } else {
        StillHolds(states, k, w, e, fate);
      }
    }
  }

  lemma StillHolds(states: States, k: Key, w: World, e: Envelope, fate: Fate)
    requires e.sequence > 0 && Coherent(w, e.sequence - 1) && DistinctIds(e) && Believing(states, w)
    requires k in states && Connected(states[k]) && states[k].serverRef.Some? && Leaves(e, states[k].serverRef.value.id)
    requires Send(w, e, fate).1.Reply? && Send(w, e, fate).1.receipt.accepted
    ensures Holds(Send(w, e, fate).0, states[k].serverRef.value.id, states[k].serverRef.value.generation, {})
  {
    SendHolds(w, e, fate, states[k].serverRef.value.id, states[k].serverRef.value.generation);
  }

  /** A batch without an answer: a hello in it may have been heard. */
  lemma DoubtedTracks(
    states: States, after: States, w: World, v: World, dropped: set<Id>, e: Envelope,
    ops: seq<Operation>, kind: Kind)
    requires AllKept(states) && AllDue(states, ops, kind) && Doubted(states, after, ops)
    requires e.kind == kind && e.entries == Entries(ops)
    requires Tracking(states, w, dropped) && w.late <= v.late
    requires forall id | MayBeOurs(v, id) :: MayBeOurs(w, id) || ClaimsId(e, id) || LateClaim(v, id)
    ensures Tracking(after, v, dropped)
  {
    DueNamesItsSource(states, ops, kind);
    forall id | MayBeOurs(v, id) && id !in dropped && !LateClaim(v, id) ensures TrackedBy(after, id) {
      assert !LateClaim(w, id);
      var k := id.source;
      if ClaimsId(e, id) {
        var i :| 0 <= i < |e.entries| && e.entries[i].id == id;
        assert IsFor(ops, k);
        DoubtKeeps(k, states[k], ops[i]);
      } else {
        assert TrackedBy(states, id);
        if IsFor(ops, k) {
          var i :| 0 <= i < |ops| && ops[i].key == k;
          DoubtKeeps(k, states[k], ops[i]);
        }
      }
    }
  }

  lemma DoubtedKept(states: States, after: States, ops: seq<Operation>, kind: Kind)
    requires AllKept(states) && AllDue(states, ops, kind) && Doubted(states, after, ops)
    ensures AllKept(after)
  {
    forall k | k in after ensures Kept(k, after[k]) {
      if IsFor(ops, k) {
        var i :| 0 <= i < |ops| && ops[i].key == k;
        DoubtKeeps(k, states[k], ops[i]);
      }
    }
  }

  lemma LaterTracks(states: States, w: World, v: World, dropped: set<Id>)
    requires Tracking(states, w, dropped) && w.late <= v.late
    requires forall id | MayBeOurs(v, id) :: MayBeOurs(w, id) || LateClaim(v, id)
    ensures Tracking(states, v, dropped)
  {
    forall id | MayBeOurs(v, id) && id !in dropped && !LateClaim(v, id) ensures TrackedBy(states, id) {
      assert !LateClaim(w, id);
    }
  }

  lemma RefusedBelieves(states: States, w: World, e: Envelope, fate: Fate)
    requires e.sequence > 0 && Coherent(w, e.sequence - 1) && DistinctIds(e) && Believing(states, w)
    requires Send(w, e, fate).1.Refusal?
    ensures Believing(states, Send(w, e, fate).0)
  {
    var quiet := Envelope(e.sequence, Heartbeat, []);
    forall k | k in states && Connected(states[k]) && states[k].serverRef.Some?
      ensures Holds(Send(w, e, fate).0, states[k].serverRef.value.id, states[k].serverRef.value.generation, {})
    {
      SendHolds(w, quiet, fate, states[k].serverRef.value.id, states[k].serverRef.value.generation);
      assert Send(w, quiet, fate) == Send(w, e, fate);
    }
  }

  lemma DropTracks(states: States, w: World, dropped: set<Id>, k: Key, s: Source, gone: set<Id>)
    requires Tracking(states, w, dropped)
    requires forall id: Id | id.source == k && TrackedBy(states, id) :: Tracks(s, id) || id in gone
    ensures Tracking(states[k := s], w, dropped + gone)
  {
    forall id | MayBeOurs(w, id) && !(id in dropped + gone || LateClaim(w, id)) ensures TrackedBy(states[k := s], id) {
      assert TrackedBy(states, id);
    }
  }

  /** Every source that is not being withdrawn has lost its connection. */
  ghost predicate Disconnected(before: States, after: States) {
    after.Keys == before.Keys && forall k | k in before :: after[k] == Disconnect(before[k])
  }

  ghost function BooksCut(books: Books, states: States): Books {
    books.(marks := map k | k in books.marks.Keys + states.Keys ::
      if k in states && !states[k].withdrawing && states[k].hasLatest then Rebase(BookOf(books, k), true, false).mark
      else BookOf(books, k).mark)
  }

  lemma BooksCutAt(books: Books, states: States, k: Key)
    ensures BookOf(BooksCut(books, states), k) ==
      if k in states && !states[k].withdrawing && states[k].hasLatest then Rebase(BookOf(books, k), true, false)
      else BookOf(books, k)
  {
  }

  lemma DisconnectedKeeps(states: States, after: States, w: World, dropped: set<Id>)
    requires AllKept(states) && Tracking(states, w, dropped) && Disconnected(states, after)
    ensures AllKept(after) && Tracking(after, w, dropped) && Believing(after, w)
  {
    var nothing := RelaySnapshot(NEVER, map[]);
    forall k | k in after ensures Kept(k, after[k]) && !(Connected(after[k]) && after[k].serverRef.Some?) {
      OtherEventsKeep(k, states[k], nothing);
    }
    forall id | MayBeOurs(w, id) && !(id in dropped || LateClaim(w, id)) ensures TrackedBy(after, id) {
      assert TrackedBy(states, id);
      OtherEventsKeep(id.source, states[id.source], nothing);
    }
  }

  lemma DisconnectedMeters(states: States, after: States, sent: seq<Envelope>, books: Books)
    requires AllKept(states) && Disconnected(states, after) && Balanced(sent, books) && AllRead(states, books)
    ensures var cut := BooksCut(books, states);
      Balanced(sent, cut) && AllRead(after, cut) && AllMetered(after, sent, cut)
  {
    var cut := BooksCut(books, states);
    forall k
      ensures Balances(BookOf(cut, k), TotalOf(sent, k))
      ensures k in after ==> ReadsBoth(after[k], BookOf(cut, k))
      ensures k in after && !after[k].withdrawing ==> Metered(after[k], BookOf(cut, k), TotalOf(sent, k))
    {
      BooksCutAt(books, states, k);
      assert Balances(BookOf(books, k), TotalOf(sent, k));
      if k in states && !states[k].withdrawing {
        DisconnectMeters(k, states[k], BookOf(books, k), TotalOf(sent, k));
      }
    }
  }

  // ---------------------------------------------------------------------------------------------
  // The sink
  // ---------------------------------------------------------------------------------------------

  datatype SourceEvent =
    | Sampled(snapshot: Snapshot)
    | Failed
    | RelaySampled(relaySnapshot: RelaySnapshot)
    | RelayFailed
    | RelayDisabled

  /** An event that its sampler can send: identities belong to their source, counters to their kind. */
  predicate WellFormed(k: Key, event: SourceEvent) {
    match event
    case Sampled(snapshot) => snapshot.observer.source == k && forall m | m in snapshot.counts :: m.Peer?
    case RelaySampled(snapshot) => forall m | m in snapshot.counts :: m.Session?
    case _ => true
  }

  function OnEvent(s: Source, event: SourceEvent): Source {
    match event
    case Sampled(snapshot) => OnSnapshot(s, snapshot)
    case Failed => OnFailure(s)
    case RelaySampled(snapshot) => OnRelaySnapshot(s, snapshot)
    case RelayFailed => OnRelayFailure(s)
    case RelayDisabled => OnRelayDisabled(s)
  }

  /** The counters that an event reads. */
  function CountsOf(event: SourceEvent): Counts {
    match event
    case Sampled(snapshot) => snapshot.counts
    case RelaySampled(snapshot) => snapshot.counts
    case _ => map[]
  }

  ghost function BookOn(b: Book, s: Source, event: SourceEvent): Book {
    var read := b.(ledger := Read(b.ledger, CountsOf(event)));
    match event
    case Sampled(_) => if s.hasBaseline then read else Rebase(read, true, false)
    case RelaySampled(_) => if s.relay.hasBaseline then read else Rebase(read, false, true)
    case _ => b
  }

  lemma EventKeeps(k: Key, s: Source, event: SourceEvent)
    requires Kept(k, s) && !s.withdrawing && WellFormed(k, event)
    ensures var t := OnEvent(s, event);
      && Kept(k, t) && !t.withdrawing
      && (forall id :: Tracks(t, id) <==> Tracks(s, id))
      && (Connected(t) ==> Connected(s) && t.serverRef == s.serverRef)
  {
    match event
    case Sampled(snapshot) => OnSnapshotKeeps(k, s, snapshot);
    case RelaySampled(snapshot) => OtherEventsKeep(k, s, snapshot);
    case _ => OtherEventsKeep(k, s, RelaySnapshot(NEVER, map[]));
  }

  lemma ReadBalances(b: Book, counts: Counts, total: Meter -> Bytes)
    requires Balances(b, total)
    ensures Balances(b.(ledger := Read(b.ledger, counts)), total)
  {
    forall m ensures Within(At(b.ledger.gain, m), At(Read(b.ledger, counts).gain, m)) { }
  }

  lemma EventMeters(k: Key, s: Source, event: SourceEvent, b: Book, total: Meter -> Bytes)
    requires Kept(k, s) && !s.withdrawing && WellFormed(k, event)
    requires Balances(b, total) && ReadsBoth(s, b) && Metered(s, b, total)
    ensures var t, c := OnEvent(s, event), BookOn(b, s, event);
      Balances(c, total) && ReadsBoth(t, c) && Metered(t, c, total)
  {
    var t := OnEvent(s, event);
    var read := b.(ledger := Read(b.ledger, CountsOf(event)));
    ReadBalances(b, CountsOf(event), total);
    match event
    case Sampled(snapshot) =>
      SampleMeters(k, s, snapshot, b, total);
    case RelaySampled(snapshot) =>
      RelaySampleMeters(k, s, snapshot, b, total);
    case _ =>
  }

  lemma ReadMeters(s: Source, b: Book, counts: Counts, total: Meter -> Bytes)
    requires Metered(s, b, total)
    ensures Metered(s, b.(ledger := Read(b.ledger, counts)), total)
  {
    if s.hasBaseline { ReadKeepsCovered(b.ledger, s.baseline.counts, b.mark, counts); }
    if s.relay.hasBaseline { ReadKeepsCovered(b.ledger, s.relay.baseline.counts, b.mark, counts); }
  }

  lemma SampleMeters(k: Key, s: Source, snapshot: Snapshot, b: Book, total: Meter -> Bytes)
    requires Kept(k, s) && !s.withdrawing && forall m | m in snapshot.counts :: m.Peer?
    requires Balances(b, total) && ReadsBoth(s, b) && Metered(s, b, total)
    ensures var t, c := OnSnapshot(s, snapshot), BookOn(b, s, Sampled(snapshot));
      Balances(c, total) && ReadsBoth(t, c) && Metered(t, c, total)
  {
    var t, read := OnSnapshot(s, snapshot), b.(ledger := Read(b.ledger, snapshot.counts));
    ReadBalances(b, snapshot.counts, total);
    ReadMeters(s, b, snapshot.counts, total);
    assert ReadsBoth(t, read);
    if !s.hasBaseline {
      RebasePeers(t, read, total, t, false);
    }
  }

  lemma RelaySampleMeters(k: Key, s: Source, snapshot: RelaySnapshot, b: Book, total: Meter -> Bytes)
    requires Kept(k, s) && !s.withdrawing && forall m | m in snapshot.counts :: m.Session?
    requires Balances(b, total) && ReadsBoth(s, b) && Metered(s, b, total)
    ensures var t, c := OnRelaySnapshot(s, snapshot), BookOn(b, s, RelaySampled(snapshot));
      Balances(c, total) && ReadsBoth(t, c) && Metered(t, c, total)
  {
    var t, read := OnRelaySnapshot(s, snapshot), b.(ledger := Read(b.ledger, snapshot.counts));
    ReadBalances(b, snapshot.counts, total);
    ReadMeters(s, b, snapshot.counts, total);
    assert ReadsBoth(t, read);
    if !s.relay.hasBaseline {
      RebaseSessions(t, read, total, t);
    }
  }

  // ---------------------------------------------------------------------------------------------
  // All invariants together, step by step
  // ---------------------------------------------------------------------------------------------

  /** What holds even while a failure is being reported. */
  ghost predicate Floats(states: States, w: World, top: nat, sent: seq<Envelope>, books: Books, dropped: set<Id>) {
    && AllKept(states)
    && Coherent(w, top)
    && Tracking(states, w, dropped)
    && Logged(w, sent, top)
    && Balanced(sent, books)
    && AllRead(states, books)
  }

  /** What holds between any two events. */
  ghost predicate Stands(states: States, w: World, top: nat, sent: seq<Envelope>, books: Books, dropped: set<Id>) {
    Floats(states, w, top, sent, books, dropped) && Believing(states, w) && AllMetered(states, sent, books)
  }

  lemma ReplaceStands(
    states: States, w: World, top: nat, sent: seq<Envelope>, books: Books, booked: Books, dropped: set<Id>,
    k: Key, s: Source, b: Book, gone: set<Id>)
    requires Stands(states, w, top, sent, books, dropped) && Rebooked(books, booked, k, b)
    requires Kept(k, s)
    requires forall id: Id | id.source == k && TrackedBy(states, id) :: Tracks(s, id) || id in gone
    requires Connected(s) && s.serverRef.Some?
      ==> k in states && Connected(states[k]) && states[k].serverRef == s.serverRef
    requires Balances(b, TotalOf(sent, k)) && ReadsBoth(s, b)
    requires !s.withdrawing ==> Metered(s, b, TotalOf(sent, k))
    ensures Stands(states[k := s], w, top, sent, booked, dropped + gone)
  {
    DropTracks(states, w, dropped, k, s, gone);
    ReplaceBelieving(states, w, k, s);
    ReplaceBook(states, sent, books, booked, k, s, b);
  }

  /** The books after an event: only here do the sums of what was moved grow. */
  ghost function ReadBooks(books: Books, k: Key, s: Source, event: SourceEvent): Books {
    var b := BookOn(BookOf(books, k), s, event);
    Books(books.ledgers[k := b.ledger], books.marks[k := b.mark])
  }

  lemma ReadBooksAt(books: Books, k: Key, s: Source, event: SourceEvent)
    ensures Rebooked(books, ReadBooks(books, k, s, event), k, BookOn(BookOf(books, k), s, event))
  {
  }

  /** An event of a source already known, or heard of for the first time. */
  lemma EventStands(
    states: States, w: World, top: nat, sent: seq<Envelope>, books: Books, dropped: set<Id>,
    k: Key, s: Source, event: SourceEvent)
    requires Stands(states, w, top, sent, books, dropped)
    requires if k in states then s == states[k] else s == NewSource(s.registration, true)
    requires !s.withdrawing && WellFormed(k, event)
    ensures Stands(states[k := OnEvent(s, event)], w, top, sent, ReadBooks(books, k, s, event), dropped)
  {
    NewSourceIsKept(k, s.registration);
    assert Balances(BookOf(books, k), TotalOf(sent, k));
    EventKeeps(k, s, event);
    EventMeters(k, s, event, BookOf(books, k), TotalOf(sent, k));
    ReadBooksAt(books, k, s, event);
    ReplaceStands(states, w, top, sent, books, ReadBooks(books, k, s, event), dropped, k, OnEvent(s, event),
                  BookOn(BookOf(books, k), s, event), {});
    assert dropped + {} == dropped;
  }

  lemma WithdrawStands(
    states: States, w: World, top: nat, sent: seq<Envelope>, books: Books, dropped: set<Id>, k: Key, s: Source)
    requires Stands(states, w, top, sent, books, dropped)
    requires if k in states then s == states[k] else s == NewSource(s.registration, false)
    ensures Stands(states[k := OnWithdraw(s)], w, top, sent, books, dropped)
    ensures forall id: Id | id.source == k && MayBeOurs(w, id) ::
      Mentions(OnWithdraw(s).withdrawals, id) || id in dropped || LateClaim(w, id)
  {
    NewSourceIsKept(k, s.registration);
    if k in states {
      OnWithdrawKeeps(k, s);
    }
    var t := OnWithdraw(s);
    assert Balances(BookOf(books, k), TotalOf(sent, k));
    ReplaceStands(states, w, top, sent, books, books, dropped, k, t, BookOf(books, k), {});
    assert dropped + {} == dropped;
    forall id: Id | id.source == k && MayBeOurs(w, id) && !(id in dropped || LateClaim(w, id))
      ensures Mentions(t.withdrawals, id) {
      assert TrackedBy(states, id);
    }
  }

  predicate Finished(s: Source) {
    s.withdrawing && s.withdrawals == []
  }

  /** Nothing of the source may be ours, unless it leaked. */
  ghost predicate Clean(w: World, dropped: set<Id>, k: Key) {
    forall id: Id | id.source == k && MayBeOurs(w, id) :: id in dropped || LateClaim(w, id)
  }

  /** The sources that are done are gone, the rest is as it was. */
  ghost predicate Finalized(before: States, after: States) {
    && (forall k :: k in after <==> k in before && !Finished(before[k]))
    && (forall k | k in after :: after[k] == before[k])
  }

  /** Withdrawing sources with nothing left to withdraw can go. */
  lemma FinalizedStands(
    states: States, after: States, w: World, top: nat, sent: seq<Envelope>, books: Books, dropped: set<Id>)
    requires Stands(states, w, top, sent, books, dropped) && Finalized(states, after)
    ensures Stands(after, w, top, sent, books, dropped)
    ensures forall k | k in states && k !in after :: Clean(w, dropped, k)
  {
    forall id | MayBeOurs(w, id) && !(id in dropped || LateClaim(w, id)) ensures TrackedBy(after, id) {
      assert TrackedBy(states, id);
      assert Kept(id.source, states[id.source]);
    }
    forall k | k in states && k !in after ensures Clean(w, dropped, k) {
      forall id: Id | id.source == k && MayBeOurs(w, id) ensures id in dropped || LateClaim(w, id) {
        assert !TrackedBy(after, id);
      }
    }
  }

  lemma RejectStands(
    states: States, w: World, top: nat, sent: seq<Envelope>, books: Books, dropped: set<Id>, op: Operation)
    requires Stands(states, w, top, sent, books, dropped)
    requires op.key in states && Due(states[op.key], op)
    ensures Stands(states[op.key := Reject(states[op.key], op)], w, top, sent, RejectedBooks(books, op),
      RejectedIds(dropped, op))
  {
    RejectedKeeps(states, w, dropped, op);
    RejectedMeters(states, sent, books, op);
  }

  lemma RejectedKeeps(states: States, w: World, dropped: set<Id>, op: Operation)
    requires AllKept(states) && Tracking(states, w, dropped) && Believing(states, w)
    requires op.key in states && Due(states[op.key], op)
    ensures var after := states[op.key := Reject(states[op.key], op)];
      AllKept(after) && Tracking(after, w, RejectedIds(dropped, op)) && Believing(after, w)
  {
    var k, s := op.key, states[op.key];
    RejectKeeps(k, s, op);
    DropTracks(states, w, dropped, k, Reject(s, op), if op.kind == Withdrawal then {op.reference.id} else {});
    ReplaceBelieving(states, w, k, Reject(s, op));
  }

  lemma RejectedMeters(states: States, sent: seq<Envelope>, books: Books, op: Operation)
    requires AllKept(states) && op.key in states && Due(states[op.key], op)
    requires Balanced(sent, books) && AllRead(states, books) && AllMetered(states, sent, books)
    ensures var after, booked := states[op.key := Reject(states[op.key], op)], RejectedBooks(books, op);
      Balanced(sent, booked) && AllRead(after, booked) && AllMetered(after, sent, booked)
  {
    var k, s := op.key, states[op.key];
    var b := BookOf(books, k);
    assert Balances(b, TotalOf(sent, k));
    RejectMeters(s, op, b, TotalOf(sent, k));
    ReplaceBook(states, sent, books, RejectedBooks(books, op), k, Reject(s, op),
                if op.kind == Withdrawal then b else Rebase(b, true, false));
  }

  ghost function RejectedBooks(books: Books, op: Operation): Books {
    if op.kind == Withdrawal then books else Marked(books, op.key, Rebase(BookOf(books, op.key), true, false))
  }

  ghost function RejectedIds(dropped: set<Id>, op: Operation): set<Id> {
    dropped + if op.kind == Withdrawal then {op.reference.id} else {}
  }

  lemma DisconnectedStands(
    states: States, after: States, w: World, top: nat, sent: seq<Envelope>, books: Books, dropped: set<Id>)
    requires Floats(states, w, top, sent, books, dropped) && Disconnected(states, after)
    ensures Stands(after, w, top, sent, BooksCut(books, states), dropped)
  {
    DisconnectedKeeps(states, after, w, dropped);
    DisconnectedMeters(states, after, sent, books);
  }

  /** A refused batch changes nothing but what the world did meanwhile. */
  lemma RefusedStands(
    states: States, w: World, top: nat, sent: seq<Envelope>, books: Books, dropped: set<Id>, e: Envelope, fate: Fate)
    requires Stands(states, w, top, sent, books, dropped) && e.sequence == top + 1 && DistinctIds(e)
    requires Send(w, e, fate).1.Refusal?
    ensures Stands(states, Send(w, e, fate).0, top + 1, sent, books, dropped)
  {
    SendKeeps(w, e, fate);
    LaterTracks(states, w, Send(w, e, fate).0, dropped);
    RefusedBelieves(states, w, e, fate);
  }

  lemma SentLogged(w: World, v: World, sent: seq<Envelope>, top: nat, e: Envelope)
    requires Logged(w, sent, top) && e.sequence == top + 1
    requires v.network <= w.network + {e} && forall a | a in v.applied :: a in w.applied || a in w.network || a == e
    ensures Logged(v, sent + [e], top + 1)
  {
  }

  /** An accepted batch, once each of its operations is confirmed. */
  lemma ConfirmedStands(
    states: States, after: States, w: World, top: nat, sent: seq<Envelope>, books: Books, dropped: set<Id>,
    e: Envelope, fate: Fate, ops: seq<Operation>, kind: Kind, now: Time)
    returns (booked: Books)
    requires Stands(states, w, top, sent, books, dropped)
    requires AllDue(states, ops, kind) && Confirmed(states, after, ops, now)
    requires e == Envelope(top + 1, kind, Entries(ops))
    requires Send(w, e, fate).1.Reply? && Send(w, e, fate).1.receipt.accepted
    ensures Stands(after, Send(w, e, fate).0, top + 1, sent + [e], booked, dropped)
    ensures booked == BooksAfter(books, ops, kind)
  {
    booked := BooksAfter(books, ops, kind);
    DueNamesItsSource(states, ops, kind);
    SendKeeps(w, e, fate);
    SentLogged(w, Send(w, e, fate).0, sent, top, e);
    ConfirmedKept(states, after, ops, kind, now);
    ConfirmedTracks(states, after, w, Send(w, e, fate).0, dropped, e, ops, kind, now);
    ConfirmedBelieves(states, after, w, e, fate, ops, kind, now);
    ConfirmedMeters(states, after, sent, books, e, ops, kind, now);
  }

  /** A batch that failed, once each hello in it is doubted. */
  lemma DoubtedFloats(
    states: States, after: States, w: World, top: nat, sent: seq<Envelope>, books: Books, dropped: set<Id>,
    e: Envelope, fate: Fate, ops: seq<Operation>, kind: Kind)
    requires Stands(states, w, top, sent, books, dropped)
    requires AllDue(states, ops, kind) && Doubted(states, after, ops)
    requires e == Envelope(top + 1, kind, Entries(ops))
    ensures Floats(after, Send(w, e, fate).0, top + 1, sent + [e], books, dropped)
  {
    DoubtedSent(states, after, w, top, sent, dropped, e, fate, ops, kind);
    DoubtedKept(states, after, ops, kind);
    SentBalances(states, sent, books, e, ops, kind);
    DoubtedRead(states, after, books, ops);
  }

  lemma DoubtedSent(
    states: States, after: States, w: World, top: nat, sent: seq<Envelope>, dropped: set<Id>,
    e: Envelope, fate: Fate, ops: seq<Operation>, kind: Kind)
    requires AllKept(states) && Coherent(w, top) && Tracking(states, w, dropped) && Logged(w, sent, top)
    requires AllDue(states, ops, kind) && Doubted(states, after, ops)
    requires e == Envelope(top + 1, kind, Entries(ops))
    ensures var v := Send(w, e, fate).0;
      Coherent(v, top + 1) && Tracking(after, v, dropped) && Logged(v, sent + [e], top + 1)
  {
    var v := Send(w, e, fate).0;
    DueNamesItsSource(states, ops, kind);
    SendKeeps(w, e, fate);
    SentLogged(w, v, sent, top, e);
    DoubtedTracks(states, after, w, v, dropped, e, ops, kind);
  }

  lemma DoubtedRead(states: States, after: States, books: Books, ops: seq<Operation>)
    requires AllRead(states, books) && Doubted(states, after, ops)
    ensures AllRead(after, books)
  {
    forall k | k in after ensures ReadsBoth(after[k], BookOf(books, k)) {
      if IsFor(ops, k) {
        var i :| 0 <= i < |ops| && ops[i].key == k;
      }
    }
  }

  // ---------------------------------------------------------------------------------------------
  // Nothing to report
  // ---------------------------------------------------------------------------------------------

  /** A source without a changed counter: its latest sample becomes the baseline. */
  function Idle(s: Source): Source {
    s.(baseline := s.latest, hasBaseline := true, dirty := false)
  }

  function IdleRelay(s: Source): Source {
    s.(relay := s.relay.(baseline := s.relay.latest, dirty := false))
  }

  ghost predicate Idled(before: States, after: States) {
    && after.Keys == before.Keys
    && forall k | k in before :: after[k] == before[k] || (before[k].hasLatest && after[k] == Idle(before[k]))
  }

  ghost predicate RelaysIdled(before: States, after: States) {
    && after.Keys == before.Keys
    && forall k | k in before ::
         after[k] == before[k] || (before[k].relay.hasBaseline && after[k] == IdleRelay(before[k]))
  }

  ghost function BooksIdled(before: States, after: States, books: Books, peers: bool): Books {
    books.(marks := map k | k in books.marks.Keys + before.Keys ::
      if k in before && k in after && after[k] != before[k] then Rebase(BookOf(books, k), peers, !peers).mark
      else BookOf(books, k).mark)
  }

  lemma IdleKeeps(k: Key, s: Source)
    requires Kept(k, s) && s.hasLatest
    ensures Kept(k, Idle(s)) && forall id :: Tracks(Idle(s), id) <==> Tracks(s, id)
  {
  }

  lemma IdleRelayKeeps(k: Key, s: Source)
    requires Kept(k, s)
    ensures Kept(k, IdleRelay(s)) && forall id :: Tracks(IdleRelay(s), id) <==> Tracks(s, id)
  {
  }

  lemma IdleMeters(k: Key, s: Source, b: Book, total: Meter -> Bytes)
    requires Kept(k, s) && s.hasLatest && Balances(b, total) && ReadsBoth(s, b)
    requires !s.withdrawing ==> Metered(s, b, total)
    ensures var c := Rebase(b, true, false);
      Balances(c, total) && ReadsBoth(Idle(s), c) && (!s.withdrawing ==> Metered(Idle(s), c, total))
  {
    if !s.withdrawing {
      RebasePeers(s, b, total, Idle(s), false);
    }
  }

  lemma IdleRelayMeters(k: Key, s: Source, b: Book, total: Meter -> Bytes)
    requires Kept(k, s) && s.relay.hasBaseline && Balances(b, total) && ReadsBoth(s, b)
    requires !s.withdrawing ==> Metered(s, b, total)
    ensures var c := Rebase(b, false, true);
      Balances(c, total) && ReadsBoth(IdleRelay(s), c) && (!s.withdrawing ==> Metered(IdleRelay(s), c, total))
  {
    if !s.withdrawing {
      RebaseSessions(s, b, total, IdleRelay(s));
    }
  }

  lemma IdledKeeps(before: States, after: States, w: World, dropped: set<Id>, peers: bool)
    requires AllKept(before) && Tracking(before, w, dropped) && Believing(before, w)
    requires if peers then Idled(before, after) else RelaysIdled(before, after)
    ensures AllKept(after) && Tracking(after, w, dropped) && Believing(after, w)
  {
    forall k | k in before
      ensures Kept(k, after[k]) && (forall id :: Tracks(after[k], id) <==> Tracks(before[k], id))
    {
      if after[k] != before[k] {
        if peers { IdleKeeps(k, before[k]); } else { IdleRelayKeeps(k, before[k]); }
      }
    }
    forall id | MayBeOurs(w, id) && !(id in dropped || LateClaim(w, id)) ensures TrackedBy(after, id) {
      assert TrackedBy(before, id);
    }
  }

  lemma IdledMeters(before: States, after: States, sent: seq<Envelope>, books: Books, peers: bool)
    requires AllKept(before) && Balanced(sent, books) && AllRead(before, books) && AllMetered(before, sent, books)
    requires if peers then Idled(before, after) else RelaysIdled(before, after)
    ensures var idled := BooksIdled(before, after, books, peers);
      Balanced(sent, idled) && AllRead(after, idled) && AllMetered(after, sent, idled)
  {
    var idled := BooksIdled(before, after, books, peers);
    forall k
      ensures Balances(BookOf(idled, k), TotalOf(sent, k))
      ensures k in after ==> ReadsBoth(after[k], BookOf(idled, k))
      ensures k in after && !after[k].withdrawing ==> Metered(after[k], BookOf(idled, k), TotalOf(sent, k))
    {
      assert Balances(BookOf(books, k), TotalOf(sent, k));
      if k in before && after[k] != before[k] {
        assert BookOf(idled, k) == Rebase(BookOf(books, k), peers, !peers);
        IdledSource(k, before[k], after[k], BookOf(books, k), TotalOf(sent, k), peers);
      } else {
        assert BookOf(idled, k) == BookOf(books, k);
      }
    }
  }

  lemma IdledSource(k: Key, s: Source, t: Source, b: Book, total: Meter -> Bytes, peers: bool)
    requires Kept(k, s) && Balances(b, total) && ReadsBoth(s, b)
    requires !s.withdrawing ==> Metered(s, b, total)
    requires if peers then s.hasLatest && t == Idle(s) else s.relay.hasBaseline && t == IdleRelay(s)
    ensures var c := Rebase(b, peers, !peers);
      Balances(c, total) && ReadsBoth(t, c) && (!t.withdrawing ==> Metered(t, c, total))
  {
    if peers {
      IdleMeters(k, s, b, total);
    } else {
      IdleRelayMeters(k, s, b, total);
    }
  }

  lemma IdledStands(
    before: States, after: States, w: World, top: nat, sent: seq<Envelope>, books: Books, dropped: set<Id>,
    peers: bool)
    requires Stands(before, w, top, sent, books, dropped)
    requires if peers then Idled(before, after) else RelaysIdled(before, after)
    ensures Stands(after, w, top, sent, BooksIdled(before, after, books, peers), dropped)
  {
    IdledKeeps(before, after, w, dropped, peers);
    IdledMeters(before, after, sent, books, peers);
  }

  // ---------------------------------------------------------------------------------------------
  // Relay updates: one envelope for each source
  // ---------------------------------------------------------------------------------------------

  datatype RelayOperation = RelayOperation(key: Key, relay: Id, deltas: Counts)

  ghost predicate RelayDue(s: Source, op: RelayOperation) {
    && Connected(s) && s.serverRef.Some? && s.serverRef.value.id == op.relay
    && s.relay.hasLatest && s.relay.hasBaseline
    && Claims(op.deltas, s.relay.baseline.counts, s.relay.latest.counts)
  }

  function RelayEnvelope(sequence: nat, op: RelayOperation): Envelope {
    Envelope(sequence, RelayUpdate, [Entry(op.relay, EMPTY, op.deltas)])
  }

  predicate Carries(e: Envelope, op: RelayOperation) {
    e == RelayEnvelope(e.sequence, op)
  }

  lemma RelayCarries(sequence: nat, op: RelayOperation)
    ensures var e := RelayEnvelope(sequence, op); e.sequence == sequence && Carries(e, op)
  {
  }

  ghost function RelayBooks(books: Books, k: Key): Books {
    Marked(books, k, Rebase(BookOf(books, k), false, true))
  }

  lemma RelayTotals(sent: seq<Envelope>, e: Envelope, op: RelayOperation, k: Key)
    requires op.relay.source == op.key && Carries(e, op)
    ensures Rises(TotalOf(sent, k), TotalOf(sent + [e], k), if k == op.key then op.deltas else map[])
  {
    forall m ensures TotalOf(sent + [e], k)(m)
      == Plus(TotalOf(sent, k)(m), At(if k == op.key then op.deltas else map[], m)) {
      TotalOneMore(sent, e, k, m);
      if k == op.key {
        EntryTotal(e.entries, 0, k, m);
      } else {
        NoEntryTotal(e.entries, k, m);
      }
    }
  }

  lemma RelayClaimBalances(
    k: Key, s: Source, op: RelayOperation, b: Book, before: Meter -> Bytes, after: Meter -> Bytes)
    requires Kept(k, s) && RelayDue(s, op) && Balances(b, before) && ReadsBoth(s, b) && Metered(s, b, before)
    requires Rises(before, after, op.deltas)
    ensures Balances(b, after)
  {
    ClaimsAreCovered(b.ledger, s.relay.baseline.counts, b.mark, s.relay.latest.counts, op.deltas);
    forall m ensures Within(after(m), At(b.ledger.gain, m)) {
      if m.Session? {
        assert Within(before(m), At(b.mark, m));
        assert Within(Plus(At(b.mark, m), At(op.deltas, m)), At(b.ledger.gain, m));
      } else {
        assert m !in op.deltas;
      }
    }
  }

  lemma RelayConfirmMeters(
    k: Key, s: Source, op: RelayOperation, b: Book, before: Meter -> Bytes, after: Meter -> Bytes)
    requires Kept(k, s) && RelayDue(s, op) && Balances(b, after) && ReadsBoth(s, b) && Metered(s, b, before)
    requires Rises(before, after, op.deltas)
    ensures var t, c := ConfirmRelay(s), Rebase(b, false, true);
      Balances(c, after) && ReadsBoth(t, c) && Metered(t, c, after)
  {
    forall m: Meter | m.Peer? ensures after(m) == before(m) {
      assert m !in op.deltas;
    }
    RebaseSessions(s, b, after, ConfirmRelay(s));
  }

  lemma RelaySentBalances(
    states: States, sent: seq<Envelope>, books: Books, e: Envelope, op: RelayOperation)
    requires AllKept(states) && op.key in states && RelayDue(states[op.key], op) && op.relay.source == op.key
      && Carries(e, op)
    requires Balanced(sent, books) && AllRead(states, books) && AllMetered(states, sent, books)
    ensures Balanced(sent + [e], books)
  {
    var grown := sent + [e];
    forall k ensures Balances(BookOf(books, k), TotalOf(grown, k)) {
      assert Balances(BookOf(books, k), TotalOf(sent, k));
      RelayTotals(sent, e, op, k);
      if k == op.key {
        RelayClaimBalances(k, states[k], op, BookOf(books, k), TotalOf(sent, k), TotalOf(grown, k));
      }
    }
  }

  lemma RelayBooksAt(books: Books, k: Key)
    ensures Rebooked(books, RelayBooks(books, k), k, Rebase(BookOf(books, k), false, true))
  {
  }

  lemma OthersMetered(states: States, sent: seq<Envelope>, books: Books, e: Envelope, op: RelayOperation, j: Key)
    requires AllMetered(states, sent, books) && op.relay.source == op.key && Carries(e, op)
    requires j in states && !states[j].withdrawing && j != op.key
    ensures Metered(states[j], BookOf(books, j), TotalOf(sent + [e], j))
  {
    RelayTotals(sent, e, op, j);
    forall m ensures TotalOf(sent + [e], j)(m) == TotalOf(sent, j)(m) {
      PlusNone(TotalOf(sent, j)(m));
    }
  }

  /** The source of the update itself, after it. */
  lemma RelayedMeters(
    states: States, sent: seq<Envelope>, books: Books, e: Envelope, op: RelayOperation)
    requires AllKept(states) && op.key in states && RelayDue(states[op.key], op) && op.relay.source == op.key
      && Carries(e, op)
    requires Balanced(sent, books) && AllRead(states, books) && AllMetered(states, sent, books)
    ensures var k := op.key;
      var t, c := ConfirmRelay(states[k]), Rebase(BookOf(books, k), false, true);
      var total := TotalOf(sent + [e], k);
      Balances(c, total) && ReadsBoth(t, c) && Metered(t, c, total)
  {
    var k, grown := op.key, sent + [e];
    RelaySentBalances(states, sent, books, e, op);
    RelayTotals(sent, e, op, k);
    assert Balances(BookOf(books, k), TotalOf(grown, k));
    assert Kept(k, states[k]) && !states[k].withdrawing;
    RelayConfirmMeters(k, states[k], op, BookOf(books, k), TotalOf(sent, k), TotalOf(grown, k));
  }

  lemma RelayConfirmedMeters(
    states: States, sent: seq<Envelope>, books: Books, booked: Books, e: Envelope, op: RelayOperation)
    requires AllKept(states) && op.key in states && RelayDue(states[op.key], op) && op.relay.source == op.key
      && Carries(e, op)
    requires Balanced(sent, books) && AllRead(states, books) && AllMetered(states, sent, books)
    requires Rebooked(books, booked, op.key, Rebase(BookOf(books, op.key), false, true))
    ensures var grown, after := sent + [e], states[op.key := ConfirmRelay(states[op.key])];
      Balanced(grown, booked) && AllRead(after, booked) && AllMetered(after, grown, booked)
  {
    var grown, after := sent + [e], states[op.key := ConfirmRelay(states[op.key])];
    RelaySentBalances(states, sent, books, e, op);
    RelayedMeters(states, sent, books, e, op);
    RelayedBooks(states, after, books, booked, grown, op.key);
    forall j | j in after && !after[j].withdrawing ensures Metered(after[j], BookOf(booked, j), TotalOf(grown, j)) {
      if j != op.key {
        OthersMetered(states, sent, books, e, op, j);
      }
    }
  }

  lemma RelayedBooks(states: States, after: States, books: Books, booked: Books, grown: seq<Envelope>, k: Key)
    requires AllRead(states, books) && Balanced(grown, books) && k in states
    requires after.Keys == states.Keys && forall j | j in states && j != k :: after[j] == states[j]
    requires Rebooked(books, booked, k, Rebase(BookOf(books, k), false, true))
    requires Balances(Rebase(BookOf(books, k), false, true), TotalOf(grown, k))
    requires ReadsBoth(after[k], Rebase(BookOf(books, k), false, true))
    ensures Balanced(grown, booked) && AllRead(after, booked)
  {
    forall j ensures Balances(BookOf(booked, j), TotalOf(grown, j)) {
      assert Balances(BookOf(books, j), TotalOf(grown, j));
    }
  }

  /** The relay of an update is the observer its source already tracks. */
  lemma RelaySentTracks(
    states: States, w: World, v: World, dropped: set<Id>, e: Envelope, op: RelayOperation)
    requires op.key in states && RelayDue(states[op.key], op) && op.relay.source == op.key && Carries(e, op)
    requires Tracking(states, w, dropped) && w.late <= v.late
    requires forall id | MayBeOurs(v, id) :: MayBeOurs(w, id) || ClaimsId(e, id) || LateClaim(v, id)
    ensures Tracking(states, v, dropped)
  {
    forall id | MayBeOurs(v, id) && id !in dropped && !LateClaim(v, id) ensures TrackedBy(states, id) {
      assert !LateClaim(w, id);
      if ClaimsId(e, id) {
        assert id == op.relay;
      }
    }
  }

  lemma RelaySource(k: Key, s: Source, op: RelayOperation)
    requires Kept(k, s) && RelayDue(s, op)
    ensures op.relay.source == k
  {
  }

  /** What the sending does to the world, before the source takes notice. */
  lemma RelaySent(
    states: States, w: World, top: nat, sent: seq<Envelope>, dropped: set<Id>, e: Envelope, fate: Fate,
    op: RelayOperation)
    requires AllKept(states) && Coherent(w, top) && Tracking(states, w, dropped) && Logged(w, sent, top)
    requires op.key in states && RelayDue(states[op.key], op) && e.sequence == top + 1 && Carries(e, op)
    ensures op.relay.source == op.key && DistinctIds(e) && e.kind == RelayUpdate
    ensures var v := Send(w, e, fate).0;
      Coherent(v, top + 1) && Tracking(states, v, dropped) && Logged(v, sent + [e], top + 1)
  {
    var v := Send(w, e, fate).0;
    assert Kept(op.key, states[op.key]);
    RelaySource(op.key, states[op.key], op);
    SendKeeps(w, e, fate);
    SentLogged(w, v, sent, top, e);
    RelaySentTracks(states, w, v, dropped, e, op);
  }

  lemma RelayConfirmedStands(
    states: States, after: States, w: World, top: nat, sent: seq<Envelope>, books: Books, dropped: set<Id>,
    e: Envelope, fate: Fate, op: RelayOperation)
    returns (booked: Books)
    requires Stands(states, w, top, sent, books, dropped)
    requires op.key in states && RelayDue(states[op.key], op) && e == RelayEnvelope(top + 1, op)
    requires Send(w, e, fate).1.Reply? && Send(w, e, fate).1.receipt.accepted
    requires after == states[op.key := ConfirmRelay(states[op.key])]
    ensures Stands(after, Send(w, e, fate).0, top + 1, sent + [e], booked, dropped)
  {
    booked := RelayBooks(books, op.key);
    RelayCarries(top + 1, op);
    RelaySent(states, w, top, sent, dropped, e, fate, op);
    RelayBelieves(states, w, e, fate);
    RelayBooksAt(books, op.key);
    RelayConfirmedMeters(states, sent, books, booked, e, op);
    RelayConfirmedKeeps(states, after, Send(w, e, fate).0, dropped, op);
  }

  lemma RelayConfirmedKeeps(states: States, after: States, v: World, dropped: set<Id>, op: RelayOperation)
    requires AllKept(states) && Tracking(states, v, dropped) && Believing(states, v)
    requires op.key in states && RelayDue(states[op.key], op)
    requires after == states[op.key := ConfirmRelay(states[op.key])]
    ensures AllKept(after) && Tracking(after, v, dropped) && Believing(after, v)
  {
    ReplaceTracking(states, v, dropped, op.key, ConfirmRelay(states[op.key]));
    ReplaceBelieving(states, v, op.key, ConfirmRelay(states[op.key]));
  }

  lemma RelayBelieves(states: States, w: World, e: Envelope, fate: Fate)
    requires e.sequence > 0 && Coherent(w, e.sequence - 1) && DistinctIds(e) && Believing(states, w)
      && e.kind == RelayUpdate
    requires Send(w, e, fate).1.Reply? && Send(w, e, fate).1.receipt.accepted
    ensures Believing(states, Send(w, e, fate).0)
  {
    forall k | k in states && Connected(states[k]) && states[k].serverRef.Some?
      ensures Holds(Send(w, e, fate).0, states[k].serverRef.value.id, states[k].serverRef.value.generation, {})
    {
      StillHolds(states, k, w, e, fate);
    }
  }

  lemma RelayFailedFloats(
    states: States, w: World, top: nat, sent: seq<Envelope>, books: Books, dropped: set<Id>,
    e: Envelope, fate: Fate, op: RelayOperation)
    requires Stands(states, w, top, sent, books, dropped)
    requires op.key in states && RelayDue(states[op.key], op) && e == RelayEnvelope(top + 1, op)
    ensures Floats(states, Send(w, e, fate).0, top + 1, sent + [e], books, dropped)
  {
    RelayCarries(top + 1, op);
    RelaySent(states, w, top, sent, dropped, e, fate, op);
    RelaySentBalances(states, sent, books, e, op);
  }

  // ---------------------------------------------------------------------------------------------
  // What it all comes to
  // ---------------------------------------------------------------------------------------------

  /** No orphan observer. If no withdrawal was refused and nothing arrived after the server forgot the
      reporter, then whatever the server may own is tracked by its source; so a source that is gone owns
      nothing, and no envelope on its way can change that. */
  lemma NoOrphan(states: States, w: World, top: nat, sent: seq<Envelope>, books: Books, dropped: set<Id>)
    requires Stands(states, w, top, sent, books, dropped) && dropped == {} && w.late == {}
    ensures forall id: Id :: MayBeOurs(w, id) ==> TrackedBy(states, id)
    ensures forall id: Id | id.source !in states :: !Owns(w.server, id)
  {
    forall id: Id | id.source !in states ensures !Owns(w.server, id) {
      assert !TrackedBy(states, id);
      assert !MayBeOurs(w, id);
    }
  }

  /** Belief refines server state. With one reporter, a connected source's reference is what the server has on
      record, whatever was lost, delayed or repeated on the way. */
  lemma BeliefRefinesServer(
    states: States, w: World, top: nat, sent: seq<Envelope>, books: Books, dropped: set<Id>, k: Key)
    requires Stands(states, w, top, sent, books, dropped) && w.taken == {}
    requires k in states && Connected(states[k])
    ensures states[k].serverRef.Some?
    ensures OwnsAt(w, states[k].serverRef.value.id, states[k].serverRef.value.generation)
  {
    assert Kept(k, states[k]);
  }

  /** Bytes are reported at most once. Unless something arrived after the server forgot the reporter, all that
      the server ever applied for a counter is at most the sum of the counter's positive increments. */
  lemma BytesAtMostOnce(
    states: States, w: World, top: nat, sent: seq<Envelope>, books: Books, dropped: set<Id>, k: Key, m: Meter)
    requires Stands(states, w, top, sent, books, dropped) && w.late == {}
    ensures Within(Total(w.applied, k, m), At(BookOf(books, k).ledger.gain, m))
  {
    SomeClaimNoMore(w.applied, sent, k, m);
    assert Balances(BookOf(books, k), TotalOf(sent, k));
    assert Within(TotalOf(sent, k)(m), At(BookOf(books, k).ledger.gain, m));
  }

  /** A refused withdrawal is given up: the server still owns the observer, its source has forgotten it, and
      only a source that was being withdrawn reports the failure. */
  lemma RefusedWithdrawalOrphans(k: Key, s: Source, op: Operation, w: World, sequence: nat, fate: Fate)
    requires Kept(k, s) && Due(s, op) && op.kind == Withdrawal && s.serverRef.None? && s.uncertainRefs == []
    requires !Mentions(s.withdrawals[1..], op.reference.id) && Owns(w.server, op.reference.id)
    requires fate.before == [] && fate.after == [] && fate.answer == Refused
    ensures var (v, reply) := Send(w, Envelope(sequence, Withdrawal,
      [Entry(op.reference.id, op.reference.generation, map[])]), fate);
      reply.Refusal? && Owns(v.server, op.reference.id)
    ensures !Tracks(Reject(s, op), op.reference.id)
    ensures !s.withdrawFailed ==> (Reject(s, op).withdrawFailed <==> s.withdrawing)
  {
  }

  /** A late hello revives an observer exactly when the server has forgotten the reporter in between. */
  lemma LateHelloRevivesIff(w: World, top: nat, e: Envelope, at: Time, i: nat)
    requires Coherent(w, top) && e in w.network && e.kind == Hello && i < |e.entries|
    requires e.sequence <= w.server.memory.lastSequence && OwnsNothing(w.server)
    ensures !Owns(Arrived(w, e, at).server, e.entries[i].id)
    ensures Owns(Arrived(Forgotten(w), e, at).server, e.entries[i].id)
    ensures e in Forgotten(w).late
  {
    EffectsAt(w.server.observers, e.kind, e.entries, e.entries[i].id);
  }
}
