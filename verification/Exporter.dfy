/** The exporter's snapshot sink (exporter/sink.go, exporter/sink_relay.go): one loop owns the sources, turns
    their events into operations and sends them in batches over a network that may lose, delay and repeat.

    Three things hold whatever happens on that network. No observer is orphaned: whatever the server may own
    on our behalf is still tracked by its source, except for identities whose withdrawal the server refused
    and envelopes that arrived after the server forgot the reporter. Beliefs are true: a connected source's
    reference is what the server records. And no byte is reported twice. */
module Exporter {
  import opened Names
  import opened Admission
  import opened Meters
  import opened Wire
  import opened Sources

  // ---------------------------------------------------------------------------------------------
  // Totals
  // ---------------------------------------------------------------------------------------------

  function EntriesTotal(entries: seq<Entry>, k: Key, m: Meter): Bytes {
    if |entries| == 0 then NONE
    else
      var last := entries[|entries| - 1];
      var before := EntriesTotal(entries[..|entries| - 1], k, m);
      if last.id.source == k then Plus(before, At(last.deltas, m)) else before
  }

  /** What a list of envelopes claims that one counter of one source moved. */
  function Total(sent: seq<Envelope>, k: Key, m: Meter): Bytes {
    if |sent| == 0 then NONE
    else Plus(Total(sent[..|sent| - 1], k, m),
              EntriesTotal(sent[|sent| - 1].entries, k, m))
  }

  lemma {:induction false} NoEntryTotal(entries: seq<Entry>, k: Key, m: Meter)
    requires forall i | 0 <= i < |entries| :: entries[i].id.source != k
    ensures EntriesTotal(entries, k, m) == NONE
  {
    if |entries| > 0 {
      NoEntryTotal(entries[..|entries| - 1], k, m);
    }
  }

  /** If one entry is of the source, the total is what that entry says. */
  lemma {:induction false} EntryTotal(entries: seq<Entry>, i: nat, k: Key, m: Meter)
    requires i < |entries| && entries[i].id.source == k
    requires forall j | 0 <= j < |entries| && j != i :: entries[j].id.source != k
    ensures EntriesTotal(entries, k, m) == At(entries[i].deltas, m)
  {
    if i == |entries| - 1 {
      LastEntryTotal(entries, k, m);
    } else {
      EntryTotal(entries[..|entries| - 1], i, k, m);
      EarlierEntryTotal(entries, k, m);
    }
  }

  lemma LastEntryTotal(entries: seq<Entry>, k: Key, m: Meter)
    requires |entries| > 0 && entries[|entries| - 1].id.source == k
    requires forall j | 0 <= j < |entries| - 1 :: entries[j].id.source != k
    ensures EntriesTotal(entries, k, m) == At(entries[|entries| - 1].deltas, m)
  {
    NoEntryTotal(entries[..|entries| - 1], k, m);
    PlusNone(At(entries[|entries| - 1].deltas, m));
  }

  lemma EarlierEntryTotal(entries: seq<Entry>, k: Key, m: Meter)
    requires |entries| > 0 && entries[|entries| - 1].id.source != k
    ensures EntriesTotal(entries, k, m) == EntriesTotal(entries[..|entries| - 1], k, m)
  {
  }

  lemma TotalOneMore(sent: seq<Envelope>, e: Envelope, k: Key, m: Meter)
    ensures Total(sent + [e], k, m) == Plus(Total(sent, k, m), EntriesTotal(e.entries, k, m))
  {
    assert (sent + [e])[..|sent|] == sent;
  }

  /** Admitting some of what was sent, once each, claims no more than sending all of it. */
  lemma {:induction false} SomeClaimNoMore(
    applied: seq<Envelope>, sent: seq<Envelope>, k: Key, m: Meter)
    requires Increasing(applied) && Increasing(sent)
    requires forall a | a in applied :: a in sent
    ensures Within(Total(applied, k, m), Total(sent, k, m))
  {
    if |applied| > 0 {
      AppliedBefore(applied, sent);
      var n := |applied| - 1;
      var before, last := sent[..|sent| - 1], sent[|sent| - 1];
      if applied[n] == last {
        SomeClaimNoMore(applied[..n], before, k, m);
      } else {
        SomeClaimNoMore(applied, before, k, m);
      }
    }
  }

  /** Only the last envelope admitted can be the last one sent. */
  lemma AppliedBefore(applied: seq<Envelope>, sent: seq<Envelope>)
    requires |applied| > 0 && Increasing(applied) && Increasing(sent)
    requires forall a | a in applied :: a in sent
    ensures |sent| > 0
    ensures forall i | 0 <= i < |applied| - 1 :: applied[i] in sent[..|sent| - 1]
    ensures applied[|applied| - 1] != sent[|sent| - 1] ==> forall a | a in applied :: a in sent[..|sent| - 1]
  {
    var n := |applied| - 1;
    assert applied[n] in sent;
    var k :| 0 <= k < |sent| && sent[k] == applied[n];
    forall i | 0 <= i < |applied|
      ensures i < n || applied[n] != sent[|sent| - 1] ==> applied[i] in sent[..|sent| - 1]
    {
      assert applied[i] in sent;
      var j :| 0 <= j < |sent| && sent[j] == applied[i];
      if i < n || applied[n] != sent[|sent| - 1] {
        assert applied[i].sequence <= applied[n].sequence;
        assert j < |sent| - 1;
        assert sent[..|sent| - 1][j] == applied[i];
      }
    }
  }

  // ---------------------------------------------------------------------------------------------
  // Books
  // ---------------------------------------------------------------------------------------------

  /** Beside each source: what its counters really moved, and where the sums stood at the baselines. */
  datatype Book = Book(ledger: Ledger, mark: Counts)

  /** The books of all sources. */
  datatype Books = Books(ledgers: map<Key, Ledger>, marks: map<Key, Counts>)

  function BookOf(books: Books, k: Key): Book {
    Book(if k in books.ledgers then books.ledgers[k] else NO_LEDGER, if k in books.marks then books.marks[k] else map[])
  }

  /** Another mark for one source; what its counters moved is what it was. */
  function Marked(books: Books, k: Key, b: Book): Books {
    books.(marks := books.marks[k := b.mark])
  }

  function Rebase(b: Book, peers: bool, sessions: bool): Book {
    b.(mark := map m | m in b.mark.Keys + b.ledger.gain.Keys ::
      if (m.Peer? && peers) || (m.Session? && sessions) then At(b.ledger.gain, m) else At(b.mark, m))
  }

  ghost predicate Balances(b: Book, total: Meter -> Bytes) {
    forall m :: Within(total(m), At(b.ledger.gain, m)) && Within(At(b.mark, m), At(b.ledger.gain, m))
  }

  ghost predicate ReadsBoth(s: Source, b: Book) {
    && (s.hasLatest ==> Reads(b.ledger, s.latest.counts))
    && (s.relay.hasLatest ==> Reads(b.ledger, s.relay.latest.counts))
  }

  /** What was claimed so far was moved before the baseline that the next claim starts from. */
  ghost predicate Metered(s: Source, b: Book, total: Meter -> Bytes) {
    && (s.hasBaseline ==>
          && Covered(b.ledger, s.baseline.counts, b.mark)
          && forall m: Meter | m.Peer? :: Within(total(m), At(b.mark, m)))
    && (s.relay.hasBaseline ==>
          && Covered(b.ledger, s.relay.baseline.counts, b.mark)
          && forall m: Meter | m.Session? :: Within(total(m), At(b.mark, m)))
  }

  ghost function TotalOf(sent: seq<Envelope>, k: Key): Meter -> Bytes {
    m => Total(sent, k, m)
  }

  lemma RebasePeers(s: Source, b: Book, total: Meter -> Bytes, t: Source, sessions: bool)
    requires ReadsBoth(s, b) && Balances(b, total) && s.hasLatest
    requires t.hasLatest && t.latest == s.latest && t.baseline == s.latest
    requires forall m | m in s.latest.counts :: m.Peer?
    requires forall m | m in s.relay.latest.counts :: m.Session?
    requires forall m | m in s.relay.baseline.counts :: m.Session?
    requires if sessions then t.relay.hasBaseline ==> t.relay.baseline == s.relay.latest && s.relay.hasLatest
             else t.relay.hasBaseline ==> s.relay.hasBaseline && t.relay.baseline == s.relay.baseline
    requires !sessions && t.relay.hasBaseline ==>
      && Covered(b.ledger, s.relay.baseline.counts, b.mark)
      && forall m: Meter | m.Session? :: Within(total(m), At(b.mark, m))
    ensures Metered(t, Rebase(b, true, sessions), total) && Balances(Rebase(b, true, sessions), total)
  {
  }

  lemma RebaseSessions(s: Source, b: Book, total: Meter -> Bytes, t: Source)
    requires ReadsBoth(s, b) && Balances(b, total) && s.relay.hasLatest
    requires forall m | m in s.relay.latest.counts :: m.Session?
    requires forall m | m in s.baseline.counts :: m.Peer?
    requires t.relay.baseline == s.relay.latest
    requires t.hasBaseline ==> s.hasBaseline && t.baseline == s.baseline
    requires t.hasBaseline ==>
      && Covered(b.ledger, s.baseline.counts, b.mark)
      && forall m: Meter | m.Peer? :: Within(total(m), At(b.mark, m))
    ensures Metered(t, Rebase(b, false, true), total) && Balances(Rebase(b, false, true), total)
  {
  }

  function BookAfter(b: Book, kind: Kind): Book {
    match kind
    case Hello => Rebase(b, true, true)
    case InventoryUpdate => Rebase(b, true, false)
    case TrafficSample => Rebase(b, true, false)
    case _ => b
  }

  /** Sending an operation claims what was moved since the baseline, no more. */
  lemma ClaimBalances(s: Source, op: Operation, b: Book, before: Meter -> Bytes, after: Meter -> Bytes)
    requires Due(s, op) && Balances(b, before) && ReadsBoth(s, b)
    requires s.healthy ==> s.hasLatest && s.hasBaseline
    requires !s.withdrawing ==> Metered(s, b, before)
    requires forall m | m in s.latest.counts :: m.Peer?
    requires forall m :: after(m) == Plus(before(m), At(op.deltas, m))
    ensures Balances(b, after)
  {
    if op.kind == TrafficSample {
      ClaimsAreCovered(b.ledger, s.baseline.counts, b.mark, s.latest.counts, op.deltas);
      forall m ensures Within(after(m), At(b.ledger.gain, m)) {
        if m.Peer? {
          assert Within(before(m), At(b.mark, m));
          assert Within(Plus(At(b.mark, m), At(op.deltas, m)), At(b.ledger.gain, m));
        } else {
          assert m !in op.deltas;
        }
      }
    }
  }

  /** Once confirmed, the next claim starts where this one ended. */
  lemma ConfirmMeters(
    s: Source, op: Operation, now: Time, b: Book, before: Meter -> Bytes, after: Meter -> Bytes)
    requires Kept(op.key, s)
    requires Due(s, op) && Balances(b, after) && ReadsBoth(s, b)
    requires !s.withdrawing ==> Metered(s, b, before)
    requires forall m :: after(m) == Plus(before(m), At(op.deltas, m))
    ensures var t, c := Confirm(s, op, now), BookAfter(b, op.kind);
      Balances(c, after) && ReadsBoth(t, c) && (!t.withdrawing ==> Metered(t, c, after))
  {
    if op.kind == Hello || op.kind == InventoryUpdate {
      RebasePeers(s, b, after, Confirm(s, op, now), op.kind == Hello);
    } else if op.kind == TrafficSample {
      forall m: Meter | m.Session? ensures after(m) == before(m) {
        assert m !in op.deltas;
      }
      RebasePeers(s, b, after, Confirm(s, op, now), false);
    }
  }

  lemma RejectMeters(s: Source, op: Operation, b: Book, total: Meter -> Bytes)
    requires Kept(op.key, s)
    requires Due(s, op) && Balances(b, total) && ReadsBoth(s, b)
    requires !s.withdrawing ==> Metered(s, b, total)
    ensures var t, c := Reject(s, op), if op.kind == Withdrawal then b else Rebase(b, true, false);
      Balances(c, total) && ReadsBoth(t, c) && (!t.withdrawing ==> Metered(t, c, total))
  {
    if op.kind != Withdrawal {
      RebasePeers(s, b, total, Reject(s, op), false);
    }
  }

  lemma DisconnectMeters(k: Key, s: Source, b: Book, total: Meter -> Bytes)
    requires Kept(k, s) && Balances(b, total) && ReadsBoth(s, b) && !s.withdrawing
    ensures var t, c := Disconnect(s), if s.hasLatest then Rebase(b, true, false) else b;
      Balances(c, total) && ReadsBoth(t, c) && Metered(t, c, total)
  {
    if s.hasLatest {
      RebasePeers(s, b, total, Disconnect(s), false);
    }
  }
}
