/** The application (internal/app/app.go) over its store (internal/store/sqlite.go): every accepted report
    is one database transaction, and whatever the database holds rebuilds the live state. */
module Recovery {
  import opened Names
  import opened Canonical
  import opened Invariants
  import opened Reports
  import opened Determinism
  import opened Normalization
  import opened DeviceDirectory
  import opened Aggregation

  /** A row of the reports table. The stored report has its relay hints redacted. */
  datatype Row = Row(id: nat, report: Report, at: Time)

  /** The one row of runtime_state: the marshalled graph, and the last report row folded into it. */
  datatype Checkpoint = Checkpoint(graph: Graph, stored: map<ReporterId, Stored>, updatedAt: Time, lastRow: nat)

  datatype Database = Database(rows: seq<Row>, checkpoint: Option<Checkpoint>)

  const CHECKPOINT_EVERY: int := 1_000_000_000

  function Encode(g: Graph): (stored: map<ReporterId, Stored>)
    ensures Encodes(stored, g)
  {
    map r | r in g.reporters :: Stored(g.reporters[r].memory, g.reporters[r].observers, map[], map[])
  }

  function LastRow(db: Database): nat {
    if db.checkpoint.None? then 0 else db.checkpoint.value.lastRow
  }

  function UpdatedAt(db: Database): Time {
    if db.checkpoint.None? then NEVER else db.checkpoint.value.updatedAt
  }

  function RowsAfter(rows: seq<Row>, last: nat): (result: seq<Row>)
    ensures forall r :: r in result <==> r in rows && r.id > last
  {
    if |rows| == 0 then []
    else
      var before, row := RowsAfter(rows[..|rows| - 1], last), rows[|rows| - 1];
      if row.id > last then before + [row] else before
  }

  /** The reports that a restart will replay. */
  function Pending(db: Database): seq<Row> {
    RowsAfter(db.rows, LastRow(db))
  }

  ghost predicate InRowOrder(rows: seq<Row>) {
    forall i, j | 0 <= i < j < |rows| :: rows[i].id < rows[j].id
  }

  function Base(db: Database): Graph {
    if db.checkpoint.None? then EMPTY_GRAPH else db.checkpoint.value.graph
  }

  /** Whatever IDs and orders are drawn, replaying the row on `before` gives `after`. */
  ghost predicate Replays(cfg: Config, before: Graph, row: Row, after: Graph) {
    forall o: Oracle ::
      var a := Apply(before, cfg, row.report, row.at, o);
      a.Some? && a.value.graph == after
  }

  ghost predicate Rebuilds(cfg: Config, base: Graph, rows: seq<Row>, live: Graph)
    decreases |rows|, 1
  {
    if |rows| == 0 then base == live else exists before :: RebuildsVia(cfg, base, rows, before, live)
  }

  ghost predicate RebuildsVia(cfg: Config, base: Graph, rows: seq<Row>, before: Graph, live: Graph)
    requires |rows| > 0
    decreases |rows|, 0
  {
    Rebuilds(cfg, base, rows[..|rows| - 1], before) && Replays(cfg, before, rows[|rows| - 1], live)
  }

  /** The checkpoint is one that the program wrote, and rows are in the order of their IDs. */
  ghost predicate Restorable(db: Database) {
    && Sound(Base(db))
    && (db.checkpoint.Some? ==> Encodes(db.checkpoint.value.stored, db.checkpoint.value.graph))
    && InRowOrder(db.rows)
  }

  /** What the database owes to the live state. */
  ghost predicate Recoverable(db: Database, cfg: Config, live: Graph) {
    Rebuilds(cfg, Base(db), Pending(db), live)
  }

  /** Reports not yet folded into the checkpoint were received within the interval that follows it. */
  ghost predicate Lags(db: Database) {
    && (db.checkpoint.None? ==> db.rows == [])
    && forall r | r in Pending(db) :: UpdatedAt(db) <= r.at < UpdatedAt(db) + CHECKPOINT_EVERY
  }

  // ---------------------------------------------------------------------------------------------
  // Lemmas on the tables
  // ---------------------------------------------------------------------------------------------

  lemma {:induction false} AllAfter(rows: seq<Row>, last: nat)
    requires forall r | r in rows :: r.id > last
    ensures RowsAfter(rows, last) == rows
  {
    if |rows| > 0 {
      AllAfter(rows[..|rows| - 1], last);
      assert rows == rows[..|rows| - 1] + [rows[|rows| - 1]];
    }
  }

  lemma {:induction false} NoneAfter(rows: seq<Row>, last: nat)
    requires forall r | r in rows :: r.id <= last
    ensures RowsAfter(rows, last) == []
  {
    if |rows| > 0 {
      NoneAfter(rows[..|rows| - 1], last);
    }
  }

  /** What is replayed is replayed in the order it was recorded. */
  lemma {:induction false} InOrderAfter(rows: seq<Row>, last: nat)
    requires InRowOrder(rows)
    ensures InRowOrder(RowsAfter(rows, last))
  {
    if |rows| > 0 {
      var before, row := rows[..|rows| - 1], rows[|rows| - 1];
      InOrderAfter(before, last);
      forall r | r in RowsAfter(before, last) ensures r.id < row.id {
        assert r in before;
      }
    }
  }

  /** The last row to be replayed is the last row. */
  lemma LastIsLast(rows: seq<Row>, last: nat)
    requires InRowOrder(rows) && RowsAfter(rows, last) != []
    ensures forall r | r in rows :: r.id <= RowsAfter(rows, last)[|RowsAfter(rows, last)| - 1].id
  {
    var after := RowsAfter(rows, last);
    assert after[|after| - 1] in after && after[|after| - 1] in rows;
    if rows[|rows| - 1].id <= last {
      NoneAfter(rows, last);
    }
  }

  lemma NextInOrder(rows: seq<Row>, row: Row)
    requires InRowOrder(rows) && row.id == NextRow(rows)
    ensures InRowOrder(rows + [row]) && forall r | r in rows :: r.id < row.id
  {
  }

  /** Rows at or before the checkpoint may go: what is to be replayed stays. */
  lemma MaintainKeepsPending(rows: seq<Row>, last: nat)
    ensures RowsAfter(RowsAfter(rows, last), last) == RowsAfter(rows, last)
  {
    AllAfter(RowsAfter(rows, last), last);
  }

  lemma AppendPending(rows: seq<Row>, last: nat, row: Row)
    ensures RowsAfter(rows + [row], last) == RowsAfter(rows, last) + if row.id > last then [row] else []
  {
    assert (rows + [row])[..|rows|] == rows;
  }

  /** An uncheckpointed report that allocated and merged nothing replays to the state it left. */
  lemma RecordedReplays(cfg: Config, live: Graph, report: Report, at: Time, o: Oracle, id: nat)
    requires var a := Apply(live, cfg, report, at, o); a.Some? && !a.value.canonical
    ensures Replays(cfg, live, Row(id, Redact(report), at), Apply(live, cfg, report, at, o).value.graph)
  {
    forall p: Oracle
      ensures var a := Apply(live, cfg, Redact(report), at, p);
        a.Some? && a.value.graph == Apply(live, cfg, report, at, o).value.graph
    {
      RedactionIsInvisible(live, cfg, report, at, p);
      QuietIsDeterministic(live, cfg, report, at, o, p);
    }
  }

  /** A row replays on the way to a state that was live, on whatever the rows before it have rebuilt. */
  lemma ReplayedRow(cfg: Config, base: Graph, rows: seq<Row>, live: Graph, i: nat, mid: Graph, o: Oracle)
    returns (after: Graph)
    requires Rebuilds(cfg, base, rows, live) && i < |rows| && Rebuilds(cfg, base, rows[..i], mid)
    ensures Replays(cfg, mid, rows[i], after) && Rebuilds(cfg, base, rows[..i + 1], after)
  {
    var before;
    before, after := RebuildsOnTheWay(cfg, base, rows, live, i);
    RebuildsOnce(cfg, base, rows[..i], mid, before, o);
  }

  lemma RebuildsOneMore(cfg: Config, base: Graph, rows: seq<Row>, live: Graph, row: Row, next: Graph)
    requires Rebuilds(cfg, base, rows, live) && Replays(cfg, live, row, next)
    ensures Rebuilds(cfg, base, rows + [row], next)
  {
    assert (rows + [row])[..|rows|] == rows;
    assert RebuildsVia(cfg, base, rows + [row], live, next);
  }

  /** Replaying has one outcome. */
  lemma {:induction false} RebuildsOnce(cfg: Config, base: Graph, rows: seq<Row>, left: Graph, right: Graph, o: Oracle)
    requires Rebuilds(cfg, base, rows, left) && Rebuilds(cfg, base, rows, right)
    ensures left == right
  {
    if |rows| > 0 {
      var before, last := rows[..|rows| - 1], rows[|rows| - 1];
      var l :| RebuildsVia(cfg, base, rows, l, left);
      var r :| RebuildsVia(cfg, base, rows, r, right);
      RebuildsOnce(cfg, base, before, l, r, o);
      assert Apply(l, cfg, last.report, last.at, o).value.graph == left;
    }
  }

  /** On the way to a rebuilt state, each row replays on what the rows before it rebuild. */
  lemma {:induction false} RebuildsOnTheWay(cfg: Config, base: Graph, rows: seq<Row>, live: Graph, i: nat)
    returns (before: Graph, after: Graph)
    requires Rebuilds(cfg, base, rows, live) && i < |rows|
    ensures Rebuilds(cfg, base, rows[..i], before)
    ensures Replays(cfg, before, rows[i], after)
    ensures Rebuilds(cfg, base, rows[..i + 1], after)
  {
    var init := rows[..|rows| - 1];
    var mid :| RebuildsVia(cfg, base, rows, mid, live);
    if i == |rows| - 1 {
      assert rows[..i + 1] == rows;
      return mid, live;
    }
    before, after := RebuildsOnTheWay(cfg, base, init, mid, i);
    assert init[..i] == rows[..i] && init[..i + 1] == rows[..i + 1];
  }

  // ---------------------------------------------------------------------------------------------
  // Row IDs
  // ---------------------------------------------------------------------------------------------

  /** The greatest row ID in the table, which is in the order of its IDs. */
  function LastId(rows: seq<Row>): nat {
    if |rows| == 0 then 0 else rows[|rows| - 1].id
  }

  /** The row ID that SQLite gives to an insert into a table without AUTOINCREMENT. */
  function NextRow(rows: seq<Row>): nat {
    LastId(rows) + 1
  }

  function Insert(db: Database, report: Report, at: Time): Database {
    db.(rows := db.rows + [Row(NextRow(db.rows), Redact(report), at)])
  }

  /** The next row ID follows the checkpoint's. */
  predicate Ahead(db: Database) {
    NextRow(db.rows) > LastRow(db)
  }

  /** A report recorded without a checkpoint is replayed after a restart exactly when its row ID follows the
      one that the checkpoint names. */
  lemma SurvivesIffNotReused(db: Database, report: Report, at: Time)
    ensures Pending(Insert(db, report, at)) == Pending(db) + [Row(NextRow(db.rows), Redact(report), at)] <==> Ahead(db)
    ensures !Ahead(db) ==> Pending(Insert(db, report, at)) == Pending(db)
  {
    AppendPending(db.rows, LastRow(db), Row(NextRow(db.rows), Redact(report), at));
  }

  /** Reports recorded one after another without a checkpoint. */
  function InsertAll(db: Database, reports: seq<(Report, Time)>): Database {
    if |reports| == 0 then db
    else
      var last := reports[|reports| - 1];
      Insert(InsertAll(db, reports[..|reports| - 1]), last.0, last.1)
  }

  /** Row IDs that are left until the checkpoint's is reached again. */
  function Behind(db: Database): nat {
    if LastRow(db) > LastId(db.rows) then LastRow(db) - LastId(db.rows) else 0
  }

  /** The rows that they get, the first of them under the ID `first`. */
  function Numbered(reports: seq<(Report, Time)>, first: nat): (rows: seq<Row>)
    ensures |rows| == |reports|
    ensures forall i | 0 <= i < |rows| :: rows[i].id == first + i
  {
    seq(|reports|, i requires 0 <= i < |reports| => Row(first + i, Redact(reports[i].0), reports[i].1))
  }

  lemma {:induction false} InsertedRows(db: Database, reports: seq<(Report, Time)>)
    ensures InsertAll(db, reports) == db.(rows := db.rows + Numbered(reports, NextRow(db.rows)))
  {
    var added := Numbered(reports, NextRow(db.rows));
    if |reports| == 0 {
      assert db.rows + added == db.rows;
    } else {
      var earlier := reports[..|reports| - 1];
      InsertedRows(db, earlier);
      NumberedOnceMore(reports, NextRow(db.rows));
      assert db.rows + added == (db.rows + Numbered(earlier, NextRow(db.rows))) + [added[|added| - 1]];
    }
  }

  lemma NumberedOnceMore(reports: seq<(Report, Time)>, first: nat)
    requires |reports| > 0
    ensures var rows := Numbered(reports, first);
      rows == Numbered(reports[..|reports| - 1], first) + [rows[|rows| - 1]]
  {
  }

  lemma {:induction false} AfterJoined(left: seq<Row>, right: seq<Row>, last: nat)
    ensures RowsAfter(left + right, last) == RowsAfter(left, last) + RowsAfter(right, last)
  {
    if |right| == 0 {
      JoinedToNone(left, right);
      JoinedToNone(RowsAfter(left, last), RowsAfter(right, last));
    } else {
      var before, row := right[..|right| - 1], right[|right| - 1];
      var added := if row.id > last then [row] else [];
      AfterJoined(left, before, last);
      JoinedToLast(left, right);
      AppendPending(left + before, last, row);
      AppendPending(before, last, row);
      Associated(RowsAfter(left, last), RowsAfter(before, last), added);
    }
  }

  lemma JoinedToNone<T>(left: seq<T>, right: seq<T>)
    requires |right| == 0
    ensures left + right == left
  {
  }

  lemma JoinedToLast<T>(left: seq<T>, right: seq<T>)
    requires |right| > 0
    ensures left + right == (left + right[..|right| - 1]) + [right[|right| - 1]]
    ensures right == right[..|right| - 1] + [right[|right| - 1]]
  {
  }

  lemma Associated<T>(a: seq<T>, b: seq<T>, c: seq<T>)
    ensures (a + b) + c == a + (b + c)
  {
  }

  lemma NumberedAfter(rows: seq<Row>, first: nat, last: nat, skipped: nat)
    requires forall i | 0 <= i < |rows| :: rows[i].id == first + i
    requires skipped == if last < first then 0 else last + 1 - first
    ensures RowsAfter(rows, last) == if |rows| <= skipped then [] else rows[skipped..]
  {
    if |rows| <= skipped {
      forall r | r in rows ensures r.id <= last {
        var i :| 0 <= i < |rows| && rows[i] == r;
      }
      NoneAfter(rows, last);
    } else {
      SplitAfter(rows, last, skipped);
    }
  }

  lemma SplitAfter(rows: seq<Row>, last: nat, i: nat)
    requires i <= |rows|
    requires forall k | 0 <= k < |rows| :: rows[k].id > last <==> k >= i
    ensures RowsAfter(rows, last) == rows[i..]
  {
    NoneAfter(rows[..i], last);
    AllAfter(rows[i..], last);
    AfterJoined(rows[..i], rows[i..], last);
    assert rows == rows[..i] + rows[i..];
    assert [] + rows[i..] == rows[i..];
  }

  /** It is not one report that gets lost: of those recorded without a checkpoint the first ones are not replayed,
      as many as there are row IDs up to the one that the checkpoint names, and exactly the others are. */
  lemma FirstAreLost(db: Database, reports: seq<(Report, Time)>)
    ensures var added := Numbered(reports, NextRow(db.rows));
      Pending(InsertAll(db, reports)) == Pending(db) +
        if |reports| <= Behind(db) then [] else added[Behind(db)..]
  {
    var added := Numbered(reports, NextRow(db.rows));
    InsertedRows(db, reports);
    AfterJoined(db.rows, added, LastRow(db));
    NumberedAfter(added, NextRow(db.rows), LastRow(db), Behind(db));
  }

  lemma AppendKeeps(db: Database, row: Row)
    requires Restorable(db) && Lags(db) && row.id == NextRow(db.rows)
    requires UpdatedAt(db) != NEVER && UpdatedAt(db) <= row.at < UpdatedAt(db) + CHECKPOINT_EVERY
    ensures var after := db.(rows := db.rows + [row]); Restorable(after) && Lags(after)
  {
    NextInOrder(db.rows, row);
    AppendPending(db.rows, LastRow(db), row);
  }

  lemma AppendRecovers(db: Database, cfg: Config, live: Graph, row: Row, next: Graph)
    requires Recoverable(db, cfg, live) && Replays(cfg, live, row, next) && row.id > LastRow(db)
    ensures Recoverable(db.(rows := db.rows + [row]), cfg, next)
  {
    AppendPending(db.rows, LastRow(db), row);
    RebuildsOneMore(cfg, Base(db), Pending(db), live, row, next);
  }

  function Maintained(db: Database): Database {
    if LastRow(db) > 0 then db.(rows := RowsAfter(db.rows, LastRow(db))) else db
  }

  lemma MaintainKeeps(db: Database)
    requires InRowOrder(db.rows)
    ensures var after := Maintained(db);
      && InRowOrder(after.rows) && Pending(after) == Pending(db) && after.checkpoint == db.checkpoint
  {
    MaintainKeepsPending(db.rows, LastRow(db));
    InOrderAfter(db.rows, LastRow(db));
  }

  lemma MaintainedStands(db: Database, cfg: Config, live: Graph)
    requires Restorable(db) && Lags(db)
    ensures Restorable(Maintained(db)) && Lags(Maintained(db)) && UpdatedAt(Maintained(db)) == UpdatedAt(db)
    ensures Recoverable(db, cfg, live) ==> Recoverable(Maintained(db), cfg, live)
  {
    MaintainKeeps(db);
    assert Base(Maintained(db)) == Base(db);
  }

  /** Row IDs start over when maintenance runs after a checkpoint that no report has followed. */
  lemma MaintenanceEmptiesIff(db: Database)
    requires InRowOrder(db.rows)
    ensures Maintained(db).rows == []
       <==> db.rows == [] || (0 < LastRow(db) && db.rows[|db.rows| - 1].id <= LastRow(db))
    ensures Maintained(db).rows != [] && Ahead(db) ==> Ahead(Maintained(db))
  {
    if db.rows != [] {
      var last := db.rows[|db.rows| - 1];
      if last.id <= LastRow(db) {
        NoneAfter(db.rows, LastRow(db));
      } else {
        assert RowsAfter(db.rows, LastRow(db))[|RowsAfter(db.rows, LastRow(db))| - 1] == last;
      }
    }
  }

  // ---------------------------------------------------------------------------------------------
  // The application
  // ---------------------------------------------------------------------------------------------

  /** A directory commit leaves the reports alone; a checkpoint it makes names the last of them. */
  ghost predicate RowsKept(before: Database, after: Database) {
    after.rows == before.rows && (LastRow(after) == LastRow(before) || LastRow(after) == LastId(before.rows))
  }

  /** Unless a report is lost already, the next one will not be. */
  predicate StaysAhead(before: Database, lostBefore: bool, after: Database, lost: bool) {
    Ahead(before) && !lostBefore ==> Ahead(after) && !lost
  }

  lemma SnapshotKeepsSound(g: Graph, cfg: Config, devices: seq<Device>, at: Time, o: Oracle)
    requires Sound(g) && Normalised(devices) && Fair(o) && Guarded(devices)
    ensures Sound(ApplyDirectory(g, cfg, devices, at, o))
  {
    DirectoryNeverConflates(g, cfg, devices, at, o);
  }

  datatype Outcome =
    | Unapplied(accepted: bool, resync: bool)
    | AlreadyStored
    | StoreFailed
    | Panicked
    | Committed(accepted: bool, resync: bool)

  /** Which reports reach the store, and what the reporter is told. */
  ghost predicate SubmitOutcome(result: Option<Applied>, db: Database, report: Report, fails: bool, outcome: Outcome) {
    if result.None? then outcome == Panicked
    else
      var a := result.value;
      if !a.changed then outcome == Unapplied(a.accepted, a.resync)
      else if fails then outcome == StoreFailed
      else if exists r | r in db.rows :: r.report.id == report.id then outcome == AlreadyStored
      else outcome == Committed(a.accepted, a.resync)
  }

  class App {
    const cfg: Config
    const aggregator: Aggregator
    var db: Database
    var lastCheckpoint: Time

    /** A report was recorded under a row ID that the checkpoint names already, and there has been no checkpoint
        since. */
    ghost var lost: bool

    ghost predicate Valid()
      reads this, aggregator
    {
      && aggregator.cfg == cfg
      && Sound(aggregator.state)
      && Restorable(db)
      && lastCheckpoint == UpdatedAt(db)
      && Lags(db)
      && (!lost ==> Recoverable(db, cfg, aggregator.state))
    }

    /** Restoring the checkpoint, if there is one. */
    constructor (cfg: Config, db: Database)
      requires Restorable(db)
      ensures fresh(aggregator) && aggregator.cfg == this.cfg == cfg && aggregator.state == Base(db)
      ensures this.db == db && lastCheckpoint == UpdatedAt(db) && !lost
    {
      var base := EMPTY_GRAPH;
      if db.checkpoint.Some? {
        var restored := RestoreState(db.checkpoint.value.graph, db.checkpoint.value.stored);
        base := restored.value;
      }
      this.cfg := cfg;
      this.aggregator := new Aggregator(cfg, base);
      this.db := db;
      this.lastCheckpoint := UpdatedAt(db);
      this.lost := false;
    }

    /** A stored report is applied again. It panics where the replay can differ from the run. */
    method Reapply(row: Row, o: Oracle, ghost after: Graph) returns (ok: bool)
      requires aggregator.cfg == cfg && Sound(aggregator.state) && Fair(o)
      modifies aggregator
      ensures ok ==> Sound(aggregator.state)
      ensures Replays(cfg, old(aggregator.state), row, after) ==> ok && aggregator.state == after
    {
      var result := aggregator.ApplyReport(row.report, row.at, o);
      ok := result.Some?;
    }

    /** The reports that follow the checkpoint are applied again. */
    method Replay(oracles: nat -> Oracle, ghost live: Graph) returns (ok: bool, latest: Time)
      requires aggregator.cfg == cfg && aggregator.state == Base(db) && Restorable(db) && forall i :: Fair(oracles(i))
      modifies aggregator
      ensures ok ==> Sound(aggregator.state)
      ensures Recoverable(db, cfg, live) ==> ok && aggregator.state == live
      ensures Pending(db) == [] ==> ok && aggregator.state == Base(db)
    {
      var pending := Pending(db);
      latest := UpdatedAt(db);
      for i := 0 to |pending|
        invariant aggregator.cfg == cfg && Sound(aggregator.state)
        invariant Recoverable(db, cfg, live) ==> Rebuilds(cfg, Base(db), pending[..i], aggregator.state)
        invariant i == 0 ==> aggregator.state == Base(db)
      {
        ghost var after := live;
        if Recoverable(db, cfg, live) {
          after := ReplayedRow(cfg, Base(db), pending, live, i, aggregator.state, oracles(i));
        }
        ok := Reapply(pending[i], oracles(i), after);
        if !ok {
          return;
        }
        latest := Later(pending[i].at, latest);
      }
      assert pending[..|pending|] == pending;
      if Recoverable(db, cfg, live) {
        RebuildsOnce(cfg, Base(db), pending, aggregator.state, live, oracles(0));
      }
      ok := true;
    }

    /** New: restore the checkpoint, replay what follows it, checkpoint the result. If the database can rebuild a
        state that was live, this is the state, whatever the replay draws. A replay that panics gives no
        application. */
    static method Start(cfg: Config, db: Database, oracles: nat -> Oracle, ghost live: Graph) returns (app: Option<App>)
      requires Restorable(db) && Lags(db) && forall i :: Fair(oracles(i))
      ensures app.Some? ==>
        && fresh(app.value) && fresh(app.value.aggregator) && app.value.Valid() && !app.value.lost
        && app.value.cfg == cfg && app.value.db.rows == db.rows && Pending(app.value.db) == []
      ensures Recoverable(db, cfg, live) ==> app.Some? && app.value.aggregator.state == live
    {
      var started := new App(cfg, db);
      var ok, latest := started.Replay(oracles, live);
      if !ok {
        return None;
      }
      var pending := Pending(db);
      if |pending| > 0 {
        InOrderAfter(db.rows, LastRow(db));
        LastIsLast(db.rows, LastRow(db));
        started.SaveCheckpoint(latest, pending[|pending| - 1].id);
      }
      return Some(started);
    }

    /** The state as it is now, saved as the checkpoint of every row so far. */
    method SaveCheckpoint(updatedAt: Time, lastRow: nat)
      requires aggregator.cfg == cfg && InRowOrder(db.rows)
      requires forall r | r in db.rows :: r.id <= lastRow
      modifies this
      ensures Sound(aggregator.state) ==> Valid()
      ensures Pending(db) == [] && db.rows == old(db.rows) && !lost
      ensures db.checkpoint == Some(Checkpoint(aggregator.state, Encode(aggregator.state), updatedAt, lastRow))
    {
      db := db.(checkpoint := Some(Checkpoint(aggregator.state, Encode(aggregator.state), updatedAt, lastRow)));
      lastCheckpoint := updatedAt;
      lost := false;
      NoneAfter(db.rows, lastRow);
    }

    /** shouldCheckpoint. */
    function ShouldCheckpoint(at: Time): (should: bool)
      reads this
      ensures !should ==> lastCheckpoint != NEVER && lastCheckpoint <= at < lastCheckpoint + CHECKPOINT_EVERY
    {
      lastCheckpoint == NEVER || at < lastCheckpoint || at >= lastCheckpoint + CHECKPOINT_EVERY
    }

    /** RecordWithMetadata without a checkpoint, and the swap that follows it. */
    method Append(row: Row, next: Graph)
      requires Valid() && Sound(next) && Replays(cfg, aggregator.state, row, next)
      requires row.id == NextRow(db.rows)
      requires lastCheckpoint != NEVER && lastCheckpoint <= row.at < lastCheckpoint + CHECKPOINT_EVERY
      modifies this, aggregator
      ensures Valid() && aggregator.state == next
      ensures db == old(db).(rows := old(db).rows + [row])
      ensures lost == (old(lost) || !Ahead(old(db))) && StaysAhead(old(db), old(lost), db, lost)
    {
      AppendKeeps(db, row);
      if !lost && Ahead(db) {
        AppendRecovers(db, cfg, aggregator.state, row, next);
      }
      lost := lost || !Ahead(db);
      db := db.(rows := db.rows + [row]);
      aggregator.state := next;
    }

    /** RecordWithMetadata with a checkpoint, and the swap that follows it. */
    method AppendAndCheckpoint(row: Row, next: Graph)
      requires Valid() && Sound(next) && row.id == NextRow(db.rows)
      modifies this, aggregator
      ensures Valid() && aggregator.state == next && !lost
      ensures db.rows == old(db.rows) + [row] && Pending(db) == [] && LastRow(db) == row.id
      ensures StaysAhead(old(db), old(lost), db, lost)
    {
      NextInOrder(db.rows, row);
      db := db.(rows := db.rows + [row]);
      aggregator.state := next;
      SaveCheckpoint(row.at, row.id);
    }

    /** SubmitAt: a report is applied to a clone, recorded with or without a checkpoint in one transaction,
        and only then becomes the live state. The database at any instant is the one before the call or the
        one after it, and unless a row ID was reused both rebuild a state that was live: a crash loses at most
        the report in hand. `fails` says whether the store refuses the transaction. */
    method SubmitAt(report: Report, at: Time, o: Oracle, fails: bool) returns (outcome: Outcome)
      requires Valid() && Fair(o)
      modifies this, aggregator
      ensures Valid()
      ensures SubmitOutcome(Apply(old(aggregator.state), cfg, report, at, o), old(db), report, fails, outcome)
      ensures outcome.Committed? ==>
        var a := Apply(old(aggregator.state), cfg, report, at, o).value;
        var row := Row(NextRow(old(db).rows), Redact(report), at);
        && aggregator.state == a.graph
        && db.rows == old(db.rows) + [row]
        && if a.canonical || a.checkpoint || old(ShouldCheckpoint(at))
           then Pending(db) == [] && LastRow(db) == row.id && !lost
           else db.checkpoint == old(db.checkpoint) && lost == (old(lost) || !Ahead(old(db)))
      ensures !outcome.Committed? ==> db == old(db) && aggregator.state == old(aggregator.state) && lost == old(lost)
      ensures StaysAhead(old(db), old(lost), db, lost)
    {
      var candidate := new Aggregator(cfg, aggregator.state);
      var result := candidate.ApplyReport(report, at, o);
      if result.None? {
        return Panicked;
      }
      var applied := result.value;
      if !applied.changed {
        return Unapplied(applied.accepted, applied.resync);
      }
      if fails {
        return StoreFailed;
      }
      if exists r | r in db.rows :: r.report.id == report.id {
        return AlreadyStored;
      }
      var stored := Row(NextRow(db.rows), Redact(report), at);
      if applied.canonical || applied.checkpoint || ShouldCheckpoint(at) {
        AppendAndCheckpoint(stored, applied.graph);
      } else {
        RecordedReplays(cfg, aggregator.state, report, at, o, stored.id);
        Append(stored, applied.graph);
      }
      outcome := Committed(applied.accepted, applied.resync);
    }

    /** Maintain deletes the reports that the checkpoint has folded in. */
    method Maintain()
      requires Valid()
      modifies this`db
      ensures Valid() && db == Maintained(old(db)) && Pending(db) == old(Pending(db))
    {
      MaintainKeeps(db);
      MaintainedStands(db, cfg, aggregator.state);
      db := Maintained(db);
    }

    /** commitDirectoryCandidate: directory changes always checkpoint, at the last row in the table. */
    method CommitDirectory(candidate: Aggregator, updatedAt: Time, fails: bool) returns (ok: bool)
      requires Valid() && candidate != aggregator && candidate.cfg == cfg
      modifies this, aggregator
      ensures Sound(candidate.state) || !ok ==> Valid()
      ensures ok == !fails
      ensures if ok then aggregator.state == candidate.state && Pending(db) == [] && !lost
              else aggregator.state == old(aggregator.state) && db == old(db) && lost == old(lost)
      ensures RowsKept(old(db), db) && StaysAhead(old(db), old(lost), db, lost)
    {
      if fails {
        return false;
      }
      aggregator.state := candidate.state;
      SaveCheckpoint(updatedAt, LastId(db.rows));
      return true;
    }

    /** ApplyDirectorySnapshotAt: a snapshot that normalisation rejects changes nothing. */
    method ApplyDirectorySnapshot(devices: seq<Device>, at: Time, updatedAt: Time, o: Oracle, fails: bool)
      returns (ok: bool)
      requires Valid() && Fair(o)
      modifies this, aggregator
      ensures ok == (Normalised(devices) && !fails)
      ensures Guarded(devices) || !ok ==> Valid()
      ensures ok ==> aggregator.state == ApplyDirectory(old(aggregator.state), cfg, devices, at, o)
      ensures !ok ==> aggregator.state == old(aggregator.state)
      ensures RowsKept(old(db), db) && StaysAhead(old(db), old(lost), db, lost)
    {
      if !Normalised(devices) {
        return false;
      }
      var candidate := new Aggregator(cfg, aggregator.state);
      if Guarded(devices) {
        SnapshotKeepsSound(aggregator.state, cfg, devices, at, o);
      }
      candidate.ApplyDirectorySnapshot(devices, at, o);
      ok := CommitDirectory(candidate, updatedAt, fails);
    }

    /** UpdateDirectorySyncState; the sync status itself is not part of the graph. */
    method UpdateDirectorySyncState(updatedAt: Time, fails: bool) returns (ok: bool)
      requires Valid()
      modifies this, aggregator
      ensures Valid() && ok == !fails
      ensures aggregator.state ==
        if ok && old(aggregator.state).directory.None?
        then old(aggregator.state).(directory := Some(Directory([], map[], map[]))) else old(aggregator.state)
      ensures RowsKept(old(db), db) && StaysAhead(old(db), old(lost), db, lost)
    {
      var candidate := new Aggregator(cfg, aggregator.state);
      if candidate.state.directory.None? {
        candidate.state := candidate.state.(directory := Some(Directory([], map[], map[])));
      }
      ok := CommitDirectory(candidate, updatedAt, fails);
    }

    method ClearDirectory(updatedAt: Time, fails: bool) returns (cleared: bool)
      requires Valid()
      modifies this, aggregator
      ensures Valid() && cleared == (old(aggregator.state).directory.Some? && !fails)
      ensures aggregator.state == if cleared then old(aggregator.state).(directory := None) else old(aggregator.state)
      ensures RowsKept(old(db), db) && StaysAhead(old(db), old(lost), db, lost)
    {
      if aggregator.state.directory.None? {
        return false;
      }
      var candidate := new Aggregator(cfg, aggregator.state.(directory := None));
      cleared := CommitDirectory(candidate, updatedAt, fails);
    }
  }

  /** What an application goes through between two restarts. */
  datatype Step =
    | Submitting(report: Report, at: Time, oracle: Oracle, fails: bool)
    | Syncing(devices: seq<Device>, at: Time, updatedAt: Time, oracle: Oracle, fails: bool)
    | Updating(updatedAt: Time, fails: bool)
    | Clearing(updatedAt: Time, fails: bool)
    | Maintaining

  ghost predicate Tolerable(step: Step) {
    match step
    case Submitting(_, _, o, _) => Fair(o)
    case Syncing(devices, _, _, o, _) => Fair(o) && Guarded(devices)
    case _ => true
  }

  /** No report is lost unless maintenance makes row IDs start over. */
  method TakeStep(app: App, step: Step)
    requires app.Valid() && Tolerable(step)
    modifies app, app.aggregator
    ensures app.Valid()
    ensures !step.Maintaining? ==> StaysAhead(old(app.db), old(app.lost), app.db, app.lost)
  {
    match step
    case Submitting(report, at, o, fails) =>
      var _ := app.SubmitAt(report, at, o, fails);
    case Syncing(devices, at, updatedAt, o, fails) =>
      var _ := app.ApplyDirectorySnapshot(devices, at, updatedAt, o, fails);
    case Updating(updatedAt, fails) =>
      var _ := app.UpdateDirectorySyncState(updatedAt, fails);
    case Clearing(updatedAt, fails) =>
      var _ := app.ClearDirectory(updatedAt, fails);
    case Maintaining =>
      app.Maintain();
  }

  /** After any sequence of submits, directory commits and maintenance, with failures at any of them, the
      application stands. */
  method RunAll(app: App, steps: seq<Step>)
    requires app.Valid() && forall s | s in steps :: Tolerable(s)
    modifies app, app.aggregator
    ensures app.Valid()
    ensures Ahead(old(app.db)) && !old(app.lost) && Maintaining !in steps ==> !app.lost
  {
    for n := 0 to |steps|
      invariant app.Valid()
      invariant Maintaining !in steps ==> StaysAhead(old(app.db), old(app.lost), app.db, app.lost)
    {
      TakeStep(app, steps[n]);
    }
  }

  /** Crash recovery: an application started on the database that such a run leaves has exactly the state that was
      live, unless a report is lost. */
  method RunAndRestart(app: App, steps: seq<Step>, oracles: nat -> Oracle) returns (again: Option<App>)
    requires app.Valid() && (forall s | s in steps :: Tolerable(s)) && forall i :: Fair(oracles(i))
    modifies app, app.aggregator
    ensures app.Valid()
    ensures Ahead(old(app.db)) && !old(app.lost) && Maintaining !in steps ==> !app.lost
    ensures !app.lost ==> again.Some? && again.value.aggregator.state == app.aggregator.state
    ensures again.Some? ==>
      && fresh(again.value) && again.value.Valid() && !again.value.lost
      && again.value.db.rows == app.db.rows && Pending(again.value.db) == []
  {
    RunAll(app, steps);
    again := App.Start(app.cfg, app.db, oracles, app.aggregator.state);
  }
}
