/** The rolled-up history (internal/store/history_rollup.go, internal/store/history_query.go): cursors that
    say how far each layer is covered, deletion that never outruns them, and the summary that stitches the
    layers together. */
module History {
  import opened Names
  import opened Canonical
  import opened Traffic

  const GRACE: int := 120_000_000_000
  const RAW_RETENTION: int := 3_600_000_000_000
  const MINUTE_RETENTION: int := 172_800_000_000_000
  const HOUR_RETENTION: int := 604_800_000_000_000

  type Cursor = Option<Time>

  /** What each physical edge is mapped to under given redirects, if it does not collapse. */
  type Rule = EdgeKey -> Option<Mapping>

  /** Logical edges are mapped to themselves, as canonical edges are. */
  ghost predicate Settled(rule: Rule) {
    forall e | rule(e).Some? :: rule(rule(e).value.logical) == Some(Mapping(rule(e).value.logical, false))
  }

  /** The map holds mappings by the rule, and those of every edge that a table or the log has a row of. */
  ghost predicate Mapped(edges: EdgeMap, rule: Rule, raw: Raw, minutes: Rollup, log: Raw) {
    && (forall p | p in edges :: rule(p) == Some(edges[p]))
    && (forall k | (k in raw || k in minutes || k in log) && rule(k.0).Some? :: k.0 in edges)
  }

  // ---------------------------------------------------------------------------------------------
  // Layers as queries see them
  // ---------------------------------------------------------------------------------------------

  /** MAX over the physical rows of one logical edge at one instant. */
  function TableMax(table: Rollup, edges: EdgeMap, logical: EdgeKey, t: Time, forward: bool): nat {
    MaxOf(TableRows(table, edges, logical, t, forward))
  }

  function TableRows(table: Rollup, edges: EdgeMap, logical: EdgeKey, t: Time, forward: bool): set<nat> {
    set p | p in PhysicalOf(edges, logical) && (p, t) in table :: Part(table[(p, t)], forward != edges[p].reversed)
  }

  function RawMax(raw: Raw, edges: EdgeMap, logical: EdgeKey, t: Time, forward: bool): nat {
    MaxOf(set p | p in PhysicalOf(edges, logical) && (p, t) in raw ::
      DedupPart(p, raw[(p, t)], forward != edges[p].reversed))
  }

  function MinuteLayer(minutes: Rollup, edges: EdgeMap, logical: EdgeKey, from: Time, k: nat, forward: bool): nat
    decreases k
  {
    if k == 0 then 0
    else
      TableMax(minutes, edges, logical, from, forward)
      + MinuteLayer(minutes, edges, logical, from + MINUTE, k - 1, forward)
  }

  function HourLayer(hours: Rollup, edges: EdgeMap, logical: EdgeKey, from: Time, k: nat, forward: bool): nat
    decreases k
  {
    if k == 0 then 0
    else TableMax(hours, edges, logical, from, forward) + HourLayer(hours, edges, logical, from + HOUR, k - 1, forward)
  }

  function RawLayer(raw: Raw, edges: EdgeMap, logical: EdgeKey, from: Time, n: nat, forward: bool): nat
    decreases n
  {
    if n == 0 then 0
    else RawMax(raw, edges, logical, from, forward) + RawLayer(raw, edges, logical, from + TEN, n - 1, forward)
  }

  /** How many buckets of a layer start in [from, to). */
  function Tens(from: Time, to: Time): nat
    decreases if from < to then to - from else 0
  {
    if from >= to then 0 else 1 + Tens(from + TEN, to)
  }

  function Minutes(from: Time, to: Time): nat
    decreases if from < to then to - from else 0
  {
    if from >= to then 0 else 1 + Minutes(from + MINUTE, to)
  }

  function Hours(from: Time, to: Time): nat
    decreases if from < to then to - from else 0
  {
    if from >= to then 0 else 1 + Hours(from + HOUR, to)
  }

  // ---------------------------------------------------------------------------------------------
  // What holds of the tables
  // ---------------------------------------------------------------------------------------------

  ghost predicate Aligned(raw: Raw, minutes: Rollup, hours: Rollup, edges: EdgeMap, minuteCursor: Cursor,
      hourCursor: Cursor)
  {
    && (forall k | k in raw :: k.1 % TEN == 0)
    && (forall k | k in minutes :: k.1 % MINUTE == 0 && minuteCursor.Some? && k.1 < minuteCursor.value)
    && (forall k | k in hours :: k.1 % HOUR == 0 && hourCursor.Some? && k.1 < hourCursor.value)
    && (forall k | k in hours :: k.0 in edges && edges[k.0] == Mapping(k.0, false))
    && (minuteCursor.Some? ==> minuteCursor.value % MINUTE == 0)
    && (hourCursor.Some? ==>
      hourCursor.value % HOUR == 0 && minuteCursor.Some? && hourCursor.value <= minuteCursor.value)
  }

  predicate Reached(cursor: Cursor, t: Time) {
    cursor.Some? && t < cursor.value
  }

  /** Every raw row at or after the minute cursor is still what was recorded. */
  ghost predicate Intact(raw: Raw, log: Raw, minuteCursor: Cursor) {
    forall k: (EdgeKey, Time) | !Reached(minuteCursor, k.1) ::
      (k in raw <==> k in log) && (k in raw ==> raw[k] == log[k])
  }

  /** Every covered minute at or after the hour cursor holds the deduplicated raw sum. */
  ghost predicate MinutesHold(minutes: Rollup, log: Raw, minuteCursor: Cursor, hourCursor: Cursor) {
    forall e, m, forward: bool | m % MINUTE == 0 && Reached(minuteCursor, m) && !Reached(hourCursor, m) ::
      Rolled(minutes, e, m, forward) == RawSum(log, e, m, 6, forward)
  }

  /** Every covered hour that has not been deleted holds the sum of its logical minute peaks. */
  ghost predicate HoursHold(hours: Rollup, log: Raw, edges: EdgeMap, hourCursor: Cursor, deletedBefore: Cursor) {
    forall e, h, forward: bool | h % HOUR == 0 && Reached(hourCursor, h) && !Reached(deletedBefore, h) ::
      Rolled(hours, e, h, forward) == MinutePeaks(log, edges, e, h, 60, forward)
  }

  // ---------------------------------------------------------------------------------------------
  // Sums over rows that are not there, and over logs that agree
  // ---------------------------------------------------------------------------------------------

  lemma {:induction false} NoRowsNoSum(raw: Raw, e: EdgeKey, from: Time, n: nat, forward: bool)
    requires forall t | from <= t < from + n * 10_000_000_000 :: (e, t) !in raw
    ensures RawSum(raw, e, from, n, forward) == 0
    decreases n
  {
    if n > 0 {
      assert (e, from) !in raw;
      NoRowsNoSum(raw, e, from + TEN, n - 1, forward);
    }
  }

  lemma {:induction false} SumsAgree(raw: Raw, log: Raw, e: EdgeKey, from: Time, n: nat, forward: bool)
    requires forall t | from <= t ::
      ((e, t) in raw <==> (e, t) in log) && ((e, t) in raw ==> raw[(e, t)] == log[(e, t)])
    ensures RawSum(raw, e, from, n, forward) == RawSum(log, e, from, n, forward)
    decreases n
  {
    if n > 0 {
      SumsAgree(raw, log, e, from + TEN, n - 1, forward);
    }
  }

  /** Records behind the minute in hand do not change its sum. */
  lemma {:induction false} SumsKeep(before: Raw, after: Raw, e: EdgeKey, from: Time, n: nat, forward: bool, t: Time)
    requires from + n * 10_000_000_000 <= t
    requires forall k: (EdgeKey, Time) | k.1 < t ::
      (k in before <==> k in after) && (k in before ==> before[k] == after[k])
    ensures RawSum(after, e, from, n, forward) == RawSum(before, e, from, n, forward)
    decreases n
  {
    if n > 0 {
      assert ((e, from) in before <==> (e, from) in after);
      SumsKeep(before, after, e, from + TEN, n - 1, forward, t);
    }
  }

  lemma {:induction false} PeaksKeep(
    before: Raw, after: Raw, edges: EdgeMap, logical: EdgeKey, from: Time, k: nat, forward: bool, t: Time)
    requires from + k * 60_000_000_000 <= t
    requires forall r: (EdgeKey, Time) | r.1 < t ::
      (r in before <==> r in after) && (r in before ==> before[r] == after[r])
    ensures MinutePeaks(after, edges, logical, from, k, forward)
      == MinutePeaks(before, edges, logical, from, k, forward)
    decreases k
  {
    if k > 0 {
      forall p | p in PhysicalOf(edges, logical)
        ensures Share(after, edges, p, from, 6, forward) == Share(before, edges, p, from, 6, forward)
      {
        SumsKeep(before, after, p, from, 6, forward != edges[p].reversed, t);
      }
      assert Shares(after, edges, logical, from, 6, forward) == Shares(before, edges, logical, from, 6, forward);
      PeaksKeep(before, after, edges, logical, from + MINUTE, k - 1, forward, t);
    }
  }

  /** An aligned instant before an aligned end leaves room for a whole minute or hour. */
  lemma MinuteFits(m: Time, end: Time)
    requires m % MINUTE == 0 && end % MINUTE == 0 && m < end
    ensures m + MINUTE <= end
  {
  }

  lemma HourFits(h: Time, end: Time)
    requires h % HOUR == 0 && end % HOUR == 0 && h < end
    ensures h + HOUR <= end
  {
  }

  // ---------------------------------------------------------------------------------------------
  // Maxima with and without zeros
  // ---------------------------------------------------------------------------------------------

  lemma SameMax(some: set<nat>, all: set<nat>)
    requires some <= all
    requires forall v | v in all :: v in some || v == 0
    ensures MaxOf(some) == MaxOf(all)
  {
    if all != {} {
      assert MaxOf(all) in all;
      if some != {} {
        assert MaxOf(some) in all;
      }
    }
  }

  /** Where every physical minute holds its raw sum, the logical maximum is the peak. */
  lemma MinuteMaxIsPeak(minutes: Rollup, log: Raw, edges: EdgeMap, logical: EdgeKey, m: Time, forward: bool)
    requires forall p, f: bool | p in PhysicalOf(edges, logical) :: Rolled(minutes, p, m, f) == RawSum(log, p, m, 6, f)
    ensures TableMax(minutes, edges, logical, m, forward) == Peak(log, edges, logical, m, 6, forward)
  {
    var some := set p | p in PhysicalOf(edges, logical) && (p, m) in minutes ::
      Part(minutes[(p, m)], forward != edges[p].reversed);
    var all := Shares(log, edges, logical, m, 6, forward);
    forall v | v in some ensures v in all {
      var p :| p in PhysicalOf(edges, logical) && (p, m) in minutes
        && v == Part(minutes[(p, m)], forward != edges[p].reversed);
      assert Rolled(minutes, p, m, forward != edges[p].reversed) == RawSum(log, p, m, 6, forward != edges[p].reversed);
      assert v == Share(log, edges, p, m, 6, forward);
    }
    forall v | v in all ensures v in some || v == 0 {
      var p :| p in PhysicalOf(edges, logical) && v == Share(log, edges, p, m, 6, forward);
      assert Rolled(minutes, p, m, forward != edges[p].reversed) == RawSum(log, p, m, 6, forward != edges[p].reversed);
      if (p, m) in minutes {
        assert Part(minutes[(p, m)], forward != edges[p].reversed) in some;
      }
    }
    SameMax(some, all);
  }

  lemma RawMaxIsPeak(raw: Raw, edges: EdgeMap, logical: EdgeKey, t: Time, forward: bool)
    ensures RawMax(raw, edges, logical, t, forward) == Peak(raw, edges, logical, t, 1, forward)
  {
    var some := set p | p in PhysicalOf(edges, logical) && (p, t) in raw ::
      DedupPart(p, raw[(p, t)], forward != edges[p].reversed);
    var all := Shares(raw, edges, logical, t, 1, forward);
    forall p | p in PhysicalOf(edges, logical)
      ensures Share(raw, edges, p, t, 1, forward) == Bucket(raw, p, t, forward != edges[p].reversed)
    {
      assert RawSum(raw, p, t + TEN, 0, forward != edges[p].reversed) == 0;
    }
    forall v | v in some ensures v in all {
      var p :| p in PhysicalOf(edges, logical) && (p, t) in raw
        && v == DedupPart(p, raw[(p, t)], forward != edges[p].reversed);
      assert v == Share(raw, edges, p, t, 1, forward);
    }
    forall v | v in all ensures v in some || v == 0 {
      var p :| p in PhysicalOf(edges, logical) && v == Share(raw, edges, p, t, 1, forward);
      if (p, t) in raw {
        assert DedupPart(p, raw[(p, t)], forward != edges[p].reversed) in some;
      }
    }
    SameMax(some, all);
  }

  lemma {:induction false} RawLayerIsTens(raw: Raw, edges: EdgeMap, logical: EdgeKey, from: Time, n: nat, forward: bool)
    ensures RawLayer(raw, edges, logical, from, n, forward) == TenPeaks(raw, edges, logical, from, n, forward)
    decreases n
  {
    if n > 0 {
      RawMaxIsPeak(raw, edges, logical, from, forward);
      RawLayerIsTens(raw, edges, logical, from + TEN, n - 1, forward);
    }
  }

  lemma {:induction false} MinuteLayerIsPeaks(
    minutes: Rollup, log: Raw, edges: EdgeMap, logical: EdgeKey, from: Time, k: nat, forward: bool,
    minuteCursor: Cursor, hourCursor: Cursor)
    requires MinutesHold(minutes, log, minuteCursor, hourCursor)
    requires from % MINUTE == 0 && !Reached(hourCursor, from)
    requires k > 0 ==> minuteCursor.Some? && from + k * 60_000_000_000 <= minuteCursor.value
    ensures MinuteLayer(minutes, edges, logical, from, k, forward) == MinutePeaks(log, edges, logical, from, k, forward)
    decreases k
  {
    if k > 0 {
      assert Reached(minuteCursor, from);
      MinuteMaxIsPeak(minutes, log, edges, logical, from, forward);
      MinuteLayerIsPeaks(minutes, log, edges, logical, from + MINUTE, k - 1, forward, minuteCursor, hourCursor);
    }
  }

  /** Hour rows belong to logical edges, so there is one row to take the maximum of. */
  lemma HourMaxIsRow(hours: Rollup, edges: EdgeMap, logical: EdgeKey, h: Time, forward: bool)
    requires forall k | k in hours :: k.0 in edges && edges[k.0] == Mapping(k.0, false)
    ensures TableMax(hours, edges, logical, h, forward) == Rolled(hours, logical, h, forward)
  {
    var rows := set p | p in PhysicalOf(edges, logical) && (p, h) in hours ::
      Part(hours[(p, h)], forward != edges[p].reversed);
    if (logical, h) in hours {
      assert logical in PhysicalOf(edges, logical);
      assert Part(hours[(logical, h)], forward) in rows;
      forall v | v in rows ensures v == Part(hours[(logical, h)], forward) {
        var p :| p in PhysicalOf(edges, logical) && (p, h) in hours
          && v == Part(hours[(p, h)], forward != edges[p].reversed);
        assert p == logical;
      }
    } else {
      forall p | p in PhysicalOf(edges, logical) ensures (p, h) !in hours {
        var k := (p, h);
        assert k.0 == p;
      }
      assert rows == {};
    }
  }

  lemma HourIsPeaks(
    hours: Rollup, log: Raw, edges: EdgeMap, logical: EdgeKey, from: Time, forward: bool,
    hourCursor: Cursor, deletedBefore: Cursor)
    requires HoursHold(hours, log, edges, hourCursor, deletedBefore)
    requires forall r | r in hours :: r.0 in edges && edges[r.0] == Mapping(r.0, false)
    requires from % HOUR == 0 && !Reached(deletedBefore, from) && Reached(hourCursor, from)
    ensures TableMax(hours, edges, logical, from, forward) == MinutePeaks(log, edges, logical, from, 60, forward)
  {
    HourMaxIsRow(hours, edges, logical, from, forward);
  }

  /** An hour's minutes and the minutes after them. */
  lemma HourOfPeaks(log: Raw, edges: EdgeMap, logical: EdgeKey, from: Time, more: nat, forward: bool)
    ensures MinutePeaks(log, edges, logical, from, 60 + more, forward)
         == MinutePeaks(log, edges, logical, from, 60, forward)
          + MinutePeaks(log, edges, logical, from + HOUR, more, forward)
  {
    AfterIs(from, 360);
    MinutePeaksSplit(log, edges, logical, from, 60, more, forward);
  }

  lemma {:induction false} HourLayerIsPeaks(
    hours: Rollup, log: Raw, edges: EdgeMap, logical: EdgeKey, from: Time, k: nat, forward: bool,
    hourCursor: Cursor, deletedBefore: Cursor)
    requires HoursHold(hours, log, edges, hourCursor, deletedBefore)
    requires forall r | r in hours :: r.0 in edges && edges[r.0] == Mapping(r.0, false)
    requires from % HOUR == 0 && !Reached(deletedBefore, from)
    requires k > 0 ==> hourCursor.Some? && from + k * 3_600_000_000_000 <= hourCursor.value
    ensures HourLayer(hours, edges, logical, from, k, forward)
      == MinutePeaks(log, edges, logical, from, 60 * k, forward)
    decreases k
  {
    if k > 0 {
      HourIsPeaks(hours, log, edges, logical, from, forward, hourCursor, deletedBefore);
      NextHour(from);
      HourLayerIsPeaks(hours, log, edges, logical, from + HOUR, k - 1, forward, hourCursor, deletedBefore);
      HourOfPeaks(log, edges, logical, from, 60 * (k - 1), forward);
    }
  }

  // ---------------------------------------------------------------------------------------------
  // One minute, one hour
  // ---------------------------------------------------------------------------------------------

  /** The rows of a rollup: what sums to nothing has no row to tell. */
  ghost predicate MinuteRows(raw: Raw, start: Time, records: map<EdgeKey, Flow>) {
    && (forall e | e in records :: exists t :: (e, t) in raw)
    && forall e, forward: bool ::
         RawSum(raw, e, start, 6, forward) == if e in records then Part(records[e], forward) else 0
  }

  /** logicalRawTraffic: the rows of one minute, bucket by bucket, summed per edge. */
  method LogicalRawTraffic(raw: Raw, start: Time) returns (records: map<EdgeKey, Flow>)
    ensures MinuteRows(raw, start, records)
  {
    records := map[];
    var edges := set k | k in raw && start <= k.1 < start + MINUTE :: k.0;
    var todo := edges;
    while todo != {}
      invariant todo <= edges
      invariant records.Keys == edges - todo
      invariant forall e, forward: bool | e in records :: RawSum(raw, e, start, 6, forward) == Part(records[e], forward)
    {
      var e :| e in todo;
      todo := todo - {e};
      var flow := SumMinute(raw, e, start);
      records := records[e := flow];
    }
    forall e | e in records ensures exists t :: (e, t) in raw {
      var k :| k in raw && start <= k.1 < start + MINUTE && k.0 == e;
      assert (e, k.1) in raw;
    }
    forall e, forward: bool | e !in edges ensures RawSum(raw, e, start, 6, forward) == 0 {
      forall t | start <= t < start + 6 * 10_000_000_000 ensures (e, t) !in raw {
        var k := (e, t);
        assert k in raw ==> k.0 in edges;
      }
      NoRowsNoSum(raw, e, start, 6, forward);
    }
  }

  method SumMinute(raw: Raw, e: EdgeKey, start: Time) returns (flow: Flow)
    ensures forall forward: bool :: RawSum(raw, e, start, 6, forward) == Part(flow, forward)
  {
    flow := Flow(0, 0);
    var t := start;
    for i := 0 to 6
      invariant t == After(start, i)
      invariant forall forward: bool :: RawSum(raw, e, start, i, forward) == Part(flow, forward)
    {
      forall forward: bool
        ensures RawSum(raw, e, start, i + 1, forward) == RawSum(raw, e, start, i, forward) + Bucket(raw, e, t, forward)
      {
        RawSumSplits(raw, e, start, i, 1, forward);
        assert RawSum(raw, e, t + TEN, 0, forward) == 0;
      }
      AfterAfter(start, i, 1);
      if (e, t) in raw {
        flow := Flow(flow.aToB + DedupPart(e, raw[(e, t)], true), flow.bToA + DedupPart(e, raw[(e, t)], false));
      }
      t := t + TEN;
    }
  }

  ghost predicate HourRows(minutes: Rollup, edges: EdgeMap, start: Time, records: map<EdgeKey, Flow>) {
    && (forall e | e in records :: exists p :: p in edges && edges[p].logical == e)
    && forall e, forward: bool ::
         MinuteLayer(minutes, edges, e, start, 60, forward) == if e in records then Part(records[e], forward) else 0
  }

  /** logicalMinuteTraffic: the rows of one hour, the largest of each logical edge minute by minute. */
  method LogicalMinuteTraffic(minutes: Rollup, edges: EdgeMap, start: Time) returns (records: map<EdgeKey, Flow>)
    ensures HourRows(minutes, edges, start, records)
  {
    records := map[];
    var logicals := set k | k in minutes && k.0 in edges && start <= k.1 < start + HOUR :: edges[k.0].logical;
    var todo := logicals;
    while todo != {}
      invariant todo <= logicals
      invariant records.Keys == logicals - todo
      invariant forall e, forward: bool | e in records ::
        MinuteLayer(minutes, edges, e, start, 60, forward) == Part(records[e], forward)
    {
      var e :| e in todo;
      todo := todo - {e};
      records := records[e := Flow(MinuteLayer(minutes, edges, e, start, 60, true),
        MinuteLayer(minutes, edges, e, start, 60, false))];
    }
    forall e, forward: bool | e !in logicals ensures MinuteLayer(minutes, edges, e, start, 60, forward) == 0 {
      assert forall k | k in minutes && k.0 in edges && start <= k.1 < start + HOUR :: edges[k.0].logical in logicals;
      forall p, t | p in PhysicalOf(edges, e) && start <= t < start + 60 * 60_000_000_000 ensures (p, t) !in minutes {
        var k := (p, t);
        assert k.0 == p && k.1 == t;
      }
      NoRowsNoLayer(minutes, edges, e, start, 60, forward);
    }
  }

  lemma {:induction false} NoRowsNoLayer(minutes: Rollup, edges: EdgeMap, logical: EdgeKey, from: Time, k: nat,
      forward: bool)
    requires forall p, t | p in PhysicalOf(edges, logical) && from <= t < from + k * 60_000_000_000 ::
      (p, t) !in minutes
    ensures MinuteLayer(minutes, edges, logical, from, k, forward) == 0
    decreases k
  {
    if k > 0 {
      assert TableRows(minutes, edges, logical, from, forward) == {};
      NoRowsNoLayer(minutes, edges, logical, from + MINUTE, k - 1, forward);
    }
  }

  // ---------------------------------------------------------------------------------------------
  // Upserts and deletions
  // ---------------------------------------------------------------------------------------------

  function Upsert(table: Rollup, records: map<EdgeKey, Flow>, start: Time): Rollup {
    table + map e | e in records :: (e, start) := records[e]
  }

  lemma UpsertAt(table: Rollup, records: map<EdgeKey, Flow>, start: Time)
    ensures forall k :: k in Upsert(table, records, start) <==> k in table || (k.1 == start && k.0 in records)
    ensures forall e, t, forward: bool ::
      Rolled(Upsert(table, records, start), e, t, forward)
        == if t == start && e in records then Part(records[e], forward) else Rolled(table, e, t, forward)
  {
  }

  function KeptRaw(raw: Raw, cutoff: Time): Raw {
    map k | k in raw && k.1 >= cutoff :: raw[k]
  }

  function KeptRows(table: Rollup, cutoff: Time): Rollup {
    map k | k in table && k.1 >= cutoff :: table[k]
  }

  lemma MinuteStep(
    minutes: Rollup, raw: Raw, log: Raw, start: Time, hourCursor: Cursor, records: map<EdgeKey, Flow>)
    requires start % MINUTE == 0 && MinuteRows(raw, start, records)
    requires Intact(raw, log, Some(start))
    requires MinutesHold(minutes, log, Some(start), hourCursor)
    requires forall k | k in minutes :: k.1 < start
    ensures MinutesHold(Upsert(minutes, records, start), log, Some(start + MINUTE), hourCursor)
    ensures Intact(raw, log, Some(start + MINUTE))
  {
    UpsertAt(minutes, records, start);
    var after := Upsert(minutes, records, start);
    forall e, m, forward: bool | m % MINUTE == 0 && m < start + MINUTE && !Reached(hourCursor, m)
      ensures Rolled(after, e, m, forward) == RawSum(log, e, m, 6, forward)
    {
      if m >= start {
        MinuteBetween(m, start);
        SumsAgree(raw, log, e, m, 6, forward);
        assert Rolled(minutes, e, m, forward) == 0;
      }
    }
  }

  lemma MinuteBetween(m: Time, start: Time)
    requires m % MINUTE == 0 && start % MINUTE == 0 && start <= m < start + MINUTE
    ensures m == start
  {
  }

  lemma HourBetween(h: Time, start: Time)
    requires h % HOUR == 0 && start % HOUR == 0 && start <= h < start + HOUR
    ensures h == start
  {
  }

  lemma HourStep(
    hours: Rollup, minutes: Rollup, log: Raw, edges: EdgeMap, start: Time, minuteCursor: Cursor, deletedBefore: Cursor,
    records: map<EdgeKey, Flow>)
    requires start % HOUR == 0 && minuteCursor.Some? && start + HOUR <= minuteCursor.value
    requires HourRows(minutes, edges, start, records)
    requires MinutesHold(minutes, log, minuteCursor, Some(start))
    requires HoursHold(hours, log, edges, Some(start), deletedBefore)
    requires forall k | k in hours :: k.1 < start
    ensures HoursHold(Upsert(hours, records, start), log, edges, Some(start + HOUR), deletedBefore)
    ensures MinutesHold(minutes, log, minuteCursor, Some(start + HOUR))
  {
    UpsertAt(hours, records, start);
    HourIsMinute(start);
    var after := Upsert(hours, records, start);
    forall e, h, forward: bool | h % HOUR == 0 && h < start + HOUR && !Reached(deletedBefore, h)
      ensures Rolled(after, e, h, forward) == MinutePeaks(log, edges, e, h, 60, forward)
    {
      if h >= start {
        HourBetween(h, start);
        MinuteLayerIsPeaks(minutes, log, edges, e, h, 60, forward, minuteCursor, Some(start));
        assert Rolled(hours, e, h, forward) == 0;
      }
    }
  }

  /** What holds of a store at any time: the tables are aligned with their cursors, the raw rows not yet
      rolled up are all there and, unless something was recorded behind the minute cursor, the layers hold
      what was recorded. */
  ghost predicate Standing(
    raw: Raw, minutes: Rollup, hours: Rollup, edges: EdgeMap, rule: Rule, minuteCursor: Cursor, hourCursor: Cursor,
    log: Raw, deletedBefore: Cursor, behind: bool)
  {
    && Settled(rule) && Mapped(edges, rule, raw, minutes, log)
    && Aligned(raw, minutes, hours, edges, minuteCursor, hourCursor)
    && Intact(raw, log, minuteCursor)
    && (!behind ==> MinutesHold(minutes, log, minuteCursor, hourCursor)
                    && HoursHold(hours, log, edges, hourCursor, deletedBefore))
  }

  lemma MinuteAdvances(
    raw: Raw, minutes: Rollup, hours: Rollup, edges: EdgeMap, rule: Rule, start: Time, hourCursor: Cursor,
    log: Raw, deletedBefore: Cursor, behind: bool, records: map<EdgeKey, Flow>)
    requires Standing(raw, minutes, hours, edges, rule, Some(start), hourCursor, log, deletedBefore, behind)
    requires MinuteRows(raw, start, records)
    ensures Standing(raw, Upsert(minutes, records, start), hours, edges, rule, Some(start + MINUTE), hourCursor, log,
                     deletedBefore, behind)
    ensures Keeps(minutes, Upsert(minutes, records, start))
  {
    MinuteAligned(raw, minutes, hours, edges, start, hourCursor, records);
    MinuteMapped(raw, minutes, edges, rule, log, start, records);
    if !behind {
      MinuteStep(minutes, raw, log, start, hourCursor, records);
    }
  }

  lemma MinuteMapped(
    raw: Raw, minutes: Rollup, edges: EdgeMap, rule: Rule, log: Raw, start: Time, records: map<EdgeKey, Flow>)
    requires Mapped(edges, rule, raw, minutes, log) && MinuteRows(raw, start, records)
    ensures Mapped(edges, rule, raw, Upsert(minutes, records, start), log)
  {
    UpsertAt(minutes, records, start);
    forall k | k in Upsert(minutes, records, start) && k !in minutes && rule(k.0).Some? ensures k.0 in edges {
      var t :| (k.0, t) in raw;
    }
  }

  /** persistLogicalHourEdge, for each edge that is rolled up: it is mapped to itself. */
  function Persisted(edges: EdgeMap, records: map<EdgeKey, Flow>): EdgeMap {
    edges + map e | e in records :: Mapping(e, false)
  }

  lemma HourAdvances(
    raw: Raw, minutes: Rollup, hours: Rollup, edges: EdgeMap, rule: Rule, minuteCursor: Cursor, start: Time,
    log: Raw, deletedBefore: Cursor, behind: bool, records: map<EdgeKey, Flow>)
    requires Standing(raw, minutes, hours, edges, rule, minuteCursor, Some(start), log, deletedBefore, behind)
    requires minuteCursor.Some? && start + HOUR <= minuteCursor.value && HourRows(minutes, edges, start, records)
    ensures Standing(raw, minutes, Upsert(hours, records, start), Persisted(edges, records), rule, minuteCursor,
                     Some(start + HOUR), log, deletedBefore, behind)
    ensures Keeps(hours, Upsert(hours, records, start))
  {
    var more := Persisted(edges, records);
    PersistMaps(raw, minutes, edges, rule, log, start, records);
    HourAligned(raw, minutes, hours, edges, more, minuteCursor, start, records);
    if !behind {
      GrowHoursHold(hours, log, edges, more, Some(start), deletedBefore);
      GrowHourRows(minutes, edges, more, start, records);
      HourStep(hours, minutes, log, more, start, minuteCursor, deletedBefore, records);
    }
  }

  lemma MinuteAligned(
    raw: Raw, minutes: Rollup, hours: Rollup, edges: EdgeMap, start: Time, hourCursor: Cursor,
    records: map<EdgeKey, Flow>)
    requires Aligned(raw, minutes, hours, edges, Some(start), hourCursor)
    ensures Aligned(raw, Upsert(minutes, records, start), hours, edges, Some(start + MINUTE), hourCursor)
    ensures Keeps(minutes, Upsert(minutes, records, start))
  {
    UpsertAt(minutes, records, start);
    NextMinute(start);
  }

  lemma HourAligned(
    raw: Raw, minutes: Rollup, hours: Rollup, edges: EdgeMap, more: EdgeMap, minuteCursor: Cursor, start: Time,
    records: map<EdgeKey, Flow>)
    requires Aligned(raw, minutes, hours, edges, minuteCursor, Some(start))
    requires more == Persisted(edges, records) && Extends(edges, more)
    requires start + HOUR <= minuteCursor.value
    ensures Aligned(raw, minutes, Upsert(hours, records, start), more, minuteCursor, Some(start + HOUR))
    ensures Keeps(hours, Upsert(hours, records, start))
  {
    UpsertAt(hours, records, start);
    NextHour(start);
  }

  // ---------------------------------------------------------------------------------------------
  // A growing edge map
  // ---------------------------------------------------------------------------------------------

  ghost predicate Extends(edges: EdgeMap, more: EdgeMap) {
    forall p | p in edges :: p in more && more[p] == edges[p]
  }

  /** The map has grown by edges that carried nothing. */
  ghost predicate Grows(edges: EdgeMap, more: EdgeMap, log: Raw) {
    Extends(edges, more) && forall p, t | p in more && p !in edges :: (p, t) !in log
  }

  lemma PersistMaps(
    raw: Raw, minutes: Rollup, edges: EdgeMap, rule: Rule, log: Raw, start: Time, records: map<EdgeKey, Flow>)
    requires Settled(rule) && Mapped(edges, rule, raw, minutes, log) && HourRows(minutes, edges, start, records)
    ensures var more := Persisted(edges, records);
      && Mapped(more, rule, raw, minutes, log) && Grows(edges, more, log)
      && forall p, t | p in more && p !in edges :: (p, t) !in minutes
  {
    forall e | e in records ensures rule(e) == Some(Mapping(e, false)) {
      var p :| p in edges && edges[p].logical == e;
    }
    var more := Persisted(edges, records);
    forall p, t | p in more && p !in edges ensures (p, t) !in minutes && (p, t) !in log {
      var k := (p, t);
      assert k.0 == p;
    }
  }

  lemma GrowPeak(log: Raw, edges: EdgeMap, more: EdgeMap, logical: EdgeKey, from: Time, n: nat, forward: bool)
    requires Grows(edges, more, log)
    ensures Peak(log, more, logical, from, n, forward) == Peak(log, edges, logical, from, n, forward)
  {
    var some, all := Shares(log, edges, logical, from, n, forward), Shares(log, more, logical, from, n, forward);
    forall p | p in PhysicalOf(edges, logical)
      ensures p in PhysicalOf(more, logical)
      ensures Share(log, edges, p, from, n, forward) == Share(log, more, p, from, n, forward)
    {
    }
    forall v | v in all ensures v in some || v == 0 {
      var p :| p in PhysicalOf(more, logical) && v == Share(log, more, p, from, n, forward);
      if p in edges {
        assert p in PhysicalOf(edges, logical);
      } else {
        SilentSum(log, p, from, n, forward != more[p].reversed);
      }
    }
    SameMax(some, all);
  }

  lemma {:induction false} GrowPeaks(
    log: Raw, edges: EdgeMap, more: EdgeMap, logical: EdgeKey, from: Time, k: nat, forward: bool)
    requires Grows(edges, more, log)
    ensures MinutePeaks(log, more, logical, from, k, forward) == MinutePeaks(log, edges, logical, from, k, forward)
    decreases k
  {
    if k > 0 {
      GrowPeak(log, edges, more, logical, from, 6, forward);
      GrowPeaks(log, edges, more, logical, from + MINUTE, k - 1, forward);
    }
  }

  lemma GrowHoursHold(
    hours: Rollup, log: Raw, edges: EdgeMap, more: EdgeMap, hourCursor: Cursor, deletedBefore: Cursor)
    requires Grows(edges, more, log) && HoursHold(hours, log, edges, hourCursor, deletedBefore)
    ensures HoursHold(hours, log, more, hourCursor, deletedBefore)
  {
    forall e, h, forward: bool | h % HOUR == 0 && Reached(hourCursor, h) && !Reached(deletedBefore, h)
      ensures Rolled(hours, e, h, forward) == MinutePeaks(log, more, e, h, 60, forward)
    {
      GrowPeaks(log, edges, more, e, h, 60, forward);
    }
  }

  lemma {:induction false} GrowLayer(
    minutes: Rollup, edges: EdgeMap, more: EdgeMap, logical: EdgeKey, from: Time, k: nat, forward: bool)
    requires Extends(edges, more) && forall p, t | p in more && p !in edges :: (p, t) !in minutes
    ensures MinuteLayer(minutes, more, logical, from, k, forward)
      == MinuteLayer(minutes, edges, logical, from, k, forward)
    decreases k
  {
    if k > 0 {
      assert TableRows(minutes, more, logical, from, forward) == TableRows(minutes, edges, logical, from, forward);
      GrowLayer(minutes, edges, more, logical, from + MINUTE, k - 1, forward);
    }
  }

  lemma GrowHourRows(minutes: Rollup, edges: EdgeMap, more: EdgeMap, start: Time, records: map<EdgeKey, Flow>)
    requires Extends(edges, more) && forall p, t | p in more && p !in edges :: (p, t) !in minutes
    requires HourRows(minutes, edges, start, records)
    ensures HourRows(minutes, more, start, records)
  {
    forall e, forward: bool
      ensures MinuteLayer(minutes, more, e, start, 60, forward) == if e in records then Part(records[e], forward) else 0
    {
      GrowLayer(minutes, edges, more, e, start, 60, forward);
    }
  }

  lemma NextMinute(t: Time)
    requires t % MINUTE == 0
    ensures (t + MINUTE) % MINUTE == 0
  {
  }

  lemma NextHour(t: Time)
    requires t % HOUR == 0
    ensures (t + HOUR) % HOUR == 0
  {
  }

  // ---------------------------------------------------------------------------------------------
  // The store
  // ---------------------------------------------------------------------------------------------

  datatype Step =
    | Recording(edge: EdgeKey, mapping: Option<Mapping>, observer: NodeId, flow: Flow, at: Time)
    | Maintaining(now: Time)

  /** Everything recorded along the way. */
  ghost function Recorded(log: Raw, steps: seq<Step>): Raw {
    if |steps| == 0 then log
    else
      var before := Recorded(log, steps[..|steps| - 1]);
      match steps[|steps| - 1]
      case Recording(e, _, observer, flow, at) => Added(before, e, TenOf(at), observer, flow)
      case Maintaining(_) => before
  }

  class Store {
    /** What the redirects make of a physical edge. They stay as they are. */
    ghost const rule: Rule
    var edges: EdgeMap
    var raw: Raw
    var minutes: Rollup
    var hours: Rollup
    var minuteCursor: Cursor
    var hourCursor: Cursor

    /** Everything ever recorded, the latest instant before which hours may be gone, and whether anything
        was recorded behind the minute cursor. */
    ghost var log: Raw
    ghost var deletedBefore: Cursor
    ghost var behind: bool

    ghost predicate Valid()
      reads this
    {
      Underway() && (minuteCursor.Some? ==> hourCursor.Some?)
    }

    constructor (ghost rule: Rule)
      requires Settled(rule)
      ensures Valid() && this.rule == rule && edges == map[] && log == map[] && !behind
    {
      this.rule := rule;
      edges, raw, minutes, hours, minuteCursor, hourCursor := map[], map[], map[], map[], None, None;
      log, deletedBefore, behind := map[], None, false;
    }

    /** recordTraffic: one observer's traffic, added to its ten-second bucket, and the edge's mapping written. */
    method Record(e: EdgeKey, mapping: Option<Mapping>, observer: NodeId, flow: Flow, at: Time)
      requires Valid() && mapping == rule(e)
      modifies this`edges, this`raw, this`log, this`behind
      ensures Valid()
      ensures raw == Added(old(raw), e, TenOf(at), observer, flow)
        && log == Added(old(log), e, TenOf(at), observer, flow)
      ensures edges == if mapping.Some? then old(edges)[e := mapping.value] else old(edges)
      ensures behind == (old(behind) || Reached(minuteCursor, TenOf(at)))
    {
      var t := TenOf(at);
      var more := if mapping.Some? then edges[e := mapping.value] else edges;
      AddedIntact(raw, log, minuteCursor, e, t, observer, flow);
      AddedMapped(raw, minutes, edges, rule, log, e, t, observer, flow);
      if !behind && !Reached(minuteCursor, t) {
        GrowHoursHold(hours, log, edges, more, hourCursor, deletedBefore);
        AddedHolds(minutes, hours, log, more, minuteCursor, hourCursor, deletedBefore, e, t, observer, flow);
      }
      edges, raw, log := more, Added(raw, e, t, observer, flow), Added(log, e, t, observer, flow);
      behind := behind || Reached(minuteCursor, t);
    }

    /** What holds between the two rollups of one run: the hour layer may not have started. */
    ghost predicate Underway()
      reads this
    {
      Standing(raw, minutes, hours, edges, rule, minuteCursor, hourCursor, log, deletedBefore, behind)
    }

    /** One minute rolled up. */
    method RollupMinute()
      requires Underway() && minuteCursor.Some?
      modifies this`minutes, this`minuteCursor
      ensures Underway() && minuteCursor == Some(old(minuteCursor).value + MINUTE)
      ensures Keeps(old(minutes), minutes)
    {
      var start := minuteCursor.value;
      var records := LogicalRawTraffic(raw, start);
      MinuteAdvances(raw, minutes, hours, edges, rule, start, hourCursor, log, deletedBefore, behind, records);
      minutes, minuteCursor := Upsert(minutes, records, start), Some(start + MINUTE);
    }

    /** Where minutes start to be rolled up: at the first row, if there is one before `end`. */
    method StartMinutes(end: Time)
      requires Valid() && minuteCursor.None? && end % MINUTE == 0
      modifies this`minuteCursor
      ensures Underway() && minuteCursor.Some? && minuteCursor.value <= end
    {
      var first := Earliest(raw.Keys);
      var start := if first.None? then end else Earlier(MinuteOf(first.value), end);
      NothingBefore(raw, log, start);
      minuteCursor := Some(start);
    }

    /** rollupIntervals for minutes: from the cursor, or failing that the first row, to `end`. */
    method RollupMinutes(end: Time)
      requires Valid() && end % MINUTE == 0
      modifies this`minutes, this`minuteCursor
      ensures Underway() && Advanced(old(minuteCursor), minuteCursor, end)
      ensures Keeps(old(minutes), minutes)
      ensures old(minuteCursor).Some? && old(minuteCursor).value >= end ==> minutes == old(minutes)
    {
      if minuteCursor.None? {
        StartMinutes(end);
      }
      ghost var start := minuteCursor.value;
      while minuteCursor.value < end
        invariant Underway() && minuteCursor.Some?
        invariant if start >= end then minuteCursor == Some(start) && minutes == old(minutes)
                  else start <= minuteCursor.value <= end
        invariant Keeps(old(minutes), minutes)
        decreases end - minuteCursor.value
      {
        MinuteFits(minuteCursor.value, end);
        RollupMinute();
      }
    }

    /** One hour rolled up, each logical edge with traffic mapped to itself. */
    method RollupHour()
      requires Underway() && hourCursor.Some? && hourCursor.value + HOUR <= minuteCursor.value
      modifies this`hours, this`hourCursor, this`edges
      ensures Underway() && hourCursor == Some(old(hourCursor).value + HOUR)
      ensures Keeps(old(hours), hours) && Extends(old(edges), edges)
    {
      var start := hourCursor.value;
      var records := LogicalMinuteTraffic(minutes, edges, start);
      PersistMaps(raw, minutes, edges, rule, log, start, records);
      HourAdvances(raw, minutes, hours, edges, rule, minuteCursor, start, log, deletedBefore, behind, records);
      edges := Persisted(edges, records);
      hours, hourCursor := Upsert(hours, records, start), Some(start + HOUR);
    }

    method StartHours(end: Time)
      requires Underway() && hourCursor.None? && end % HOUR == 0 && minuteCursor.Some? && end <= minuteCursor.value
      modifies this`hourCursor
      ensures Underway() && hourCursor.Some? && hourCursor.value <= end
    {
      var first := Earliest(minutes.Keys);
      var start := if first.None? then end else Earlier(HourOf(first.value), end);
      if !behind {
        NoHoursBefore(minutes, hours, log, edges, minuteCursor, start, deletedBefore);
      }
      hourCursor := Some(start);
    }

    /** rollupIntervals for hours, up to `end`, which minutes already cover. */
    method RollupHours(end: Time)
      requires Underway() && end % HOUR == 0 && minuteCursor.Some? && end <= minuteCursor.value
      modifies this`hours, this`hourCursor, this`edges
      ensures Valid() && Advanced(old(hourCursor), hourCursor, end)
      ensures Keeps(old(hours), hours) && Extends(old(edges), edges)
      ensures old(hourCursor).Some? && old(hourCursor).value >= end ==> hours == old(hours) && edges == old(edges)
    {
      if hourCursor.None? {
        StartHours(end);
      }
      ghost var start := hourCursor.value;
      while hourCursor.value < end
        invariant Underway() && hourCursor.Some?
        invariant if start >= end then hourCursor == Some(start) && hours == old(hours) && edges == old(edges)
                  else start <= hourCursor.value <= end
        invariant Keeps(old(hours), hours) && Extends(old(edges), edges)
        decreases end - hourCursor.value
      {
        HourFits(hourCursor.value, end);
        RollupHour();
      }
    }

    /** deleteCoveredTraffic: rows past their retention go, but none that is not covered. */
    method DeleteCovered(now: Time)
      requires Valid() && minuteCursor.Some? && hourCursor.Some?
      modifies this`raw, this`minutes, this`hours, this`deletedBefore
      ensures Valid()
      ensures raw == KeptRaw(old(raw), RawCutoff(now, minuteCursor.value))
      ensures minutes == KeptRows(old(minutes), MinuteCutoff(now, hourCursor.value))
      ensures hours == KeptRows(old(hours), now - HOUR_RETENTION)
      ensures deletedBefore == GoneBefore(old(deletedBefore), now - HOUR_RETENTION)
    {
      DeletionStands(raw, minutes, hours, edges, rule, minuteCursor, hourCursor, log, deletedBefore, behind,
                     RawCutoff(now, minuteCursor.value), MinuteCutoff(now, hourCursor.value), now - HOUR_RETENTION);
      raw := KeptRaw(raw, RawCutoff(now, minuteCursor.value));
      minutes := KeptRows(minutes, MinuteCutoff(now, hourCursor.value));
      hours := KeptRows(hours, now - HOUR_RETENTION);
      deletedBefore := GoneBefore(deletedBefore, now - HOUR_RETENTION);
    }

    /** Nothing is left to do at this instant. */
    ghost predicate SettledAt(now: Time)
      reads this
    {
      && minuteCursor.Some? && hourCursor.Some?
      && minuteCursor.value >= MinuteOf(now - GRACE)
      && hourCursor.value >= HourEnd(now, minuteCursor.value)
      && (forall k | k in raw :: k.1 >= RawCutoff(now, minuteCursor.value))
      && (forall k | k in minutes :: k.1 >= MinuteCutoff(now, hourCursor.value))
      && (forall k | k in hours :: k.1 >= now - HOUR_RETENTION)
    }

    /** rollupHistory, whatever the clock says. Cursors never move back, no row at or after its cursor is
        lost, and a second run at the same instant changes nothing. */
    method Rollup(now: Time)
      requires Valid()
      modifies this`edges, this`raw, this`minutes, this`hours, this`minuteCursor, this`hourCursor, this`deletedBefore
      ensures Valid() && SettledAt(now) && Extends(old(edges), edges)
      ensures NotBack(old(minuteCursor), minuteCursor) && NotBack(old(hourCursor), hourCursor)
      ensures forall k | k in old(raw) && k.1 >= minuteCursor.value :: k in raw && raw[k] == old(raw)[k]
      ensures forall k | k in old(minutes) && k.1 >= hourCursor.value :: k in minutes && minutes[k] == old(minutes)[k]
      ensures old(SettledAt(now)) ==>
        raw == old(raw) && minutes == old(minutes) && hours == old(hours) && edges == old(edges) &&
        minuteCursor == old(minuteCursor) && hourCursor == old(hourCursor)
    {
      RollupMinutes(MinuteOf(now - GRACE));
      RollupHours(HourEnd(now, minuteCursor.value));
      NothingToDelete(raw, minutes, RawCutoff(now, minuteCursor.value), MinuteCutoff(now, hourCursor.value));
      NothingToDelete(raw, hours, RawCutoff(now, minuteCursor.value), now - HOUR_RETENTION);
      DeleteCovered(now);
    }

    /** Any sequence of inserts and maintenance runs, with any clock values: cursors are aligned and never
        move back, the hour cursor never passes the minute cursor, and every row at or after the minute cursor
        is still what was recorded. */
    method Live(steps: seq<Step>)
      requires Valid()
      requires forall s | s in steps && s.Recording? :: s.mapping == rule(s.edge)
      modifies this`edges, this`raw, this`minutes, this`hours, this`minuteCursor, this`hourCursor
      modifies this`log, this`deletedBefore, this`behind
      ensures Valid() && log == Recorded(old(log), steps)
      ensures NotBack(old(minuteCursor), minuteCursor) && NotBack(old(hourCursor), hourCursor)
      ensures minuteCursor.Some? ==> minuteCursor.value % MINUTE == 0
      ensures hourCursor.Some? ==>
        hourCursor.value % HOUR == 0 && minuteCursor.Some? && hourCursor.value <= minuteCursor.value
      ensures forall k | k in log && !Reached(minuteCursor, k.1) :: k in raw && raw[k] == log[k]
    {
      for n := 0 to |steps|
        invariant Valid() && log == Recorded(old(log), steps[..n])
        invariant NotBack(old(minuteCursor), minuteCursor) && NotBack(old(hourCursor), hourCursor)
      {
        assert steps[..n + 1][..n] == steps[..n];
        match steps[n]
        case Recording(e, mapping, observer, flow, at) => Record(e, mapping, observer, flow, at);
        case Maintaining(now) => Rollup(now);
      }
      assert steps[..|steps|] == steps;
    }

    /** The summary of one logical edge over [from, to): hours as far as they are covered, then minutes, then
        ten-second buckets (summaryTrafficSegments, queryTrafficSummaryLayer, loadTrafficSummaryPoints). Each layer
        gives the rows whose buckets start within its part of the window. */
    method StitchLayers(logical: EdgeKey, from: Time, to: Time, forward: bool) returns (total: nat)
      requires Valid() && !behind && from < to && !Reached(deletedBefore, from)
      ensures Stitches(total, log, edges, minuteCursor, hourCursor, logical, from, to, forward)
    {
      var hourEnd := Clamp(hourCursor, from, to);
      var minuteEnd := Clamp(minuteCursor, hourEnd, to);
      total := 0;
      if from < hourEnd {
        total := HourLayer(hours, edges, logical, HourFrom(from), Hours(HourFrom(from), hourEnd), forward);
      }
      if hourEnd < minuteEnd {
        var start := MinuteFrom(hourEnd);
        total := total + MinuteLayer(minutes, edges, logical, start, Minutes(start, minuteEnd), forward);
      }
      if minuteEnd < to {
        var start := TenFrom(minuteEnd);
        total := total + RawLayer(raw, edges, logical, start, Tens(start, to), forward);
      }
      assert total == WindowTotal(raw, minutes, hours, edges, minuteCursor, hourCursor, logical, from, to, forward);
      StitchedFrom(raw, minutes, hours, edges, minuteCursor, hourCursor, log, deletedBefore,
                   logical, from, to, forward);
    }

    /** The summary is sandwiched between what the physical edges saw, from the first bucket that starts at or after
        `from` to the last that starts before `to`, in the layers that cover them. */
    method Summary(logical: EdgeKey, from: Time, to: Time, forward: bool) returns (total: nat)
      requires Valid() && !behind && from < to && !Reached(deletedBefore, from)
      ensures
        var start, end := FirstBucket(minuteCursor, hourCursor, from, to),
          EndBucket(minuteCursor, hourCursor, from, to);
        start <= end && Sandwiched(total, log, edges, logical, start, Tens(start, end), forward)
    {
      total := StitchLayers(logical, from, to, forward);
      StitchedIsSandwiched(total, log, edges, minuteCursor, hourCursor, logical, from, to, forward);
    }
  }

  // ---------------------------------------------------------------------------------------------
  // The parts of a window
  // ---------------------------------------------------------------------------------------------

  /** The first bucket of a layer that starts at or after an instant. */
  function TenFrom(t: Time): (start: Time)
    ensures t <= start < t + TEN && start % TEN == 0
  {
    if t % TEN == 0 then t else TenOf(t) + TEN
  }

  function MinuteFrom(t: Time): (start: Time)
    ensures t <= start < t + MINUTE && start % MINUTE == 0
  {
    if t % MINUTE == 0 then t else MinuteOf(t) + MINUTE
  }

  function HourFrom(t: Time): (start: Time)
    ensures t <= start < t + HOUR && start % HOUR == 0
  {
    if t % HOUR == 0 then t else HourOf(t) + HOUR
  }

  /** Where the first bucket of the window starts, in the layer that covers the window's start. */
  function FirstBucket(minuteCursor: Cursor, hourCursor: Cursor, from: Time, to: Time): (start: Time)
    requires from < to
    ensures from <= start < from + HOUR
  {
    if from < Clamp(hourCursor, from, to) then HourFrom(from)
    else if from < Clamp(minuteCursor, from, to) then MinuteFrom(from)
    else TenFrom(from)
  }

  /** Where the last bucket of the window ends, in the layer that covers the window's end. */
  function EndBucket(minuteCursor: Cursor, hourCursor: Cursor, from: Time, to: Time): (end: Time)
    requires from < to
    ensures to <= end < to + HOUR
  {
    if Clamp(minuteCursor, from, to) < to then TenFrom(to)
    else if Clamp(hourCursor, from, to) < to then MinuteFrom(to)
    else HourFrom(to)
  }

  /** Where ten-second buckets take over. */
  function CoveredEnd(minuteCursor: Cursor, hourCursor: Cursor, from: Time, to: Time): Time
    requires from < to
  {
    var minuteEnd := Clamp(minuteCursor, from, to);
    if minuteEnd == from then FirstBucket(minuteCursor, hourCursor, from, to)
    else if minuteEnd < to then minuteEnd
    else EndBucket(minuteCursor, hourCursor, from, to)
  }

  lemma StitchedIsSandwiched(
    total: nat, log: Raw, edges: EdgeMap, minuteCursor: Cursor, hourCursor: Cursor, logical: EdgeKey, from: Time,
    to: Time, forward: bool)
    requires from < to && Stitches(total, log, edges, minuteCursor, hourCursor, logical, from, to, forward)
    ensures
      var start, end := FirstBucket(minuteCursor, hourCursor, from, to), EndBucket(minuteCursor, hourCursor, from, to);
      start <= end && Sandwiched(total, log, edges, logical, start, Tens(start, end), forward)
  {
    var start, end := FirstBucket(minuteCursor, hourCursor, from, to), EndBucket(minuteCursor, hourCursor, from, to);
    var covered := CoveredEnd(minuteCursor, hourCursor, from, to);
    LayeredIsSandwiched(log, edges, logical, start, Minutes(start, covered), Tens(covered, end), forward);
    TensSpan(start, covered, end);
  }

  /** At least any one physical edge's deduplicated raw total, at most the sum of the ten-second maxima, and
      equal to the former where only one physical edge carried traffic. */
  ghost predicate Sandwiched(total: nat, log: Raw, edges: EdgeMap, logical: EdgeKey, from: Time, n: nat, forward: bool)
  {
    && (forall p | p in edges && edges[p].logical == logical :: Share(log, edges, p, from, n, forward) <= total)
    && total <= TenPeaks(log, edges, logical, from, n, forward)
    && (forall p | p in edges && edges[p].logical == logical && Alone(log, edges, p) ::
          total == Share(log, edges, p, from, n, forward))
  }

  lemma {:induction false} TensSpan(from: Time, mid: Time, to: Time)
    requires mid == After(from, 6 * Minutes(from, mid)) && from <= mid <= to
    ensures Tens(from, to) == 6 * Minutes(from, mid) + Tens(mid, to)
    decreases mid - from
  {
    if from < mid {
      AfterIs(from, 6 * Minutes(from, mid));
      AfterIs(from + MINUTE, 6 * Minutes(from + MINUTE, mid));
      TensSpan(from + MINUTE, mid, to);
      assert Tens(from, to) == 1 + Tens(from + TEN, to) == 2 + Tens(from + TEN + TEN, to);
      assert Tens(from + TEN + TEN, to) == 2 + Tens(from + TEN + TEN + TEN + TEN, to);
      assert Tens(from + TEN + TEN + TEN + TEN, to) == 2 + Tens(from + MINUTE, to);
    }
  }

  /** maintenanceCoverage: the cursor, kept between two bounds. */
  function Clamp(cursor: Cursor, lower: Time, upper: Time): Time {
    if cursor.None? || cursor.value < lower then lower else if cursor.value > upper then upper else cursor.value
  }

  lemma {:induction false} HoursSpan(from: Time, to: Time)
    requires from % HOUR == 0 && to % HOUR == 0 && from <= to
    ensures from + Hours(from, to) * 3_600_000_000_000 == to
    decreases (to - from)
  {
    if from < to {
      HourFits(from, to);
      HoursSpan(from + HOUR, to);
    }
  }

  lemma {:induction false} MinutesSpan(from: Time, to: Time)
    requires from % MINUTE == 0 && to % MINUTE == 0 && from <= to
    ensures from + Minutes(from, to) * 60_000_000_000 == to
    decreases (to - from)
  {
    if from < to {
      MinuteFits(from, to);
      MinutesSpan(from + MINUTE, to);
    }
  }

  /** Buckets that start before an instant are those that start before the next bucket does. */
  lemma {:induction false} HoursBefore(from: Time, to: Time)
    requires from % HOUR == 0 && from <= HourFrom(to)
    ensures Hours(from, to) == Hours(from, HourFrom(to))
    decreases if from < to then to - from else 0
  {
    if from < to {
      HourFits(from, HourFrom(to));
      HoursBefore(from + HOUR, to);
    } else {
      HourBetween(HourFrom(to), from);
    }
  }

  lemma {:induction false} MinutesBefore(from: Time, to: Time)
    requires from % MINUTE == 0 && from <= MinuteFrom(to)
    ensures Minutes(from, to) == Minutes(from, MinuteFrom(to))
    decreases if from < to then to - from else 0
  {
    if from < to {
      MinuteFits(from, MinuteFrom(to));
      MinutesBefore(from + MINUTE, to);
    } else {
      MinuteBetween(MinuteFrom(to), from);
    }
  }

  lemma {:induction false} TensBefore(from: Time, to: Time)
    requires from % TEN == 0 && from <= TenFrom(to)
    ensures Tens(from, to) == Tens(from, TenFrom(to))
    decreases if from < to then to - from else 0
  {
    if from < to {
      TenFits(from, TenFrom(to));
      TensBefore(from + TEN, to);
    } else {
      TenBetween(TenFrom(to), from);
    }
  }

  lemma TenFits(t: Time, end: Time)
    requires t % TEN == 0 && end % TEN == 0 && t < end
    ensures t + TEN <= end && (t + TEN) % TEN == 0
  {
  }

  lemma TenBetween(t: Time, start: Time)
    requires t % TEN == 0 && start % TEN == 0 && start <= t < start + TEN
    ensures t == start
  {
  }

  /** What the hour layer gives for its part of a window. */
  lemma HoursPart(
    hours: Rollup, log: Raw, edges: EdgeMap, logical: EdgeKey, start: Time, end: Time, forward: bool,
    hourCursor: Cursor, deletedBefore: Cursor)
    requires HoursHold(hours, log, edges, hourCursor, deletedBefore)
    requires forall r | r in hours :: r.0 in edges && edges[r.0] == Mapping(r.0, false)
    requires start % HOUR == 0 && !Reached(deletedBefore, start)
    requires hourCursor.Some? && start <= HourFrom(end) <= hourCursor.value
    ensures HourLayer(hours, edges, logical, start, Hours(start, end), forward)
         == MinutePeaks(log, edges, logical, start, Minutes(start, HourFrom(end)), forward)
  {
    HoursBefore(start, end);
    HoursSpan(start, HourFrom(end));
    HourIsMinute(start);
    HourIsMinute(HourFrom(end));
    MinutesSpan(start, HourFrom(end));
    assert Minutes(start, HourFrom(end)) == 60 * Hours(start, end);
    HourLayerIsPeaks(hours, log, edges, logical, start, Hours(start, end), forward, hourCursor, deletedBefore);
  }

  lemma MinutesPart(
    minutes: Rollup, log: Raw, edges: EdgeMap, logical: EdgeKey, start: Time, end: Time, forward: bool,
    minuteCursor: Cursor, hourCursor: Cursor)
    requires MinutesHold(minutes, log, minuteCursor, hourCursor)
    requires start % MINUTE == 0 && !Reached(hourCursor, start)
    requires minuteCursor.Some? && start <= MinuteFrom(end) <= minuteCursor.value
    ensures MinuteLayer(minutes, edges, logical, start, Minutes(start, end), forward)
         == MinutePeaks(log, edges, logical, start, Minutes(start, MinuteFrom(end)), forward)
  {
    MinutesBefore(start, end);
    MinutesSpan(start, MinuteFrom(end));
    MinuteLayerIsPeaks(minutes, log, edges, logical, start, Minutes(start, end), forward, minuteCursor, hourCursor);
  }

  lemma TensPart(
    raw: Raw, log: Raw, edges: EdgeMap, logical: EdgeKey, start: Time, end: Time, forward: bool, minuteCursor: Cursor)
    requires Intact(raw, log, minuteCursor)
    requires start % TEN == 0 && !Reached(minuteCursor, start) && start <= TenFrom(end)
    ensures RawLayer(raw, edges, logical, start, Tens(start, end), forward)
         == TenPeaks(log, edges, logical, start, Tens(start, TenFrom(end)), forward)
  {
    TensBefore(start, end);
    RawLayerIsTens(raw, edges, logical, start, Tens(start, end), forward);
    TenPeaksAgree(raw, log, edges, logical, start, Tens(start, end), forward);
  }

  /** Minutes that follow on one another add up. */
  lemma MinutesJoin(log: Raw, edges: EdgeMap, logical: EdgeKey, from: Time, mid: Time, to: Time, forward: bool)
    requires from % MINUTE == 0 && mid % MINUTE == 0 && to % MINUTE == 0 && from <= mid <= to
    ensures MinutePeaks(log, edges, logical, from, Minutes(from, mid), forward)
          + MinutePeaks(log, edges, logical, mid, Minutes(mid, to), forward)
         == MinutePeaks(log, edges, logical, from, Minutes(from, to), forward)
  {
    MinutesSpan(from, mid);
    MinutesSpan(mid, to);
    MinutesSpan(from, to);
    AfterIs(from, 6 * Minutes(from, mid));
    assert Minutes(from, to) == Minutes(from, mid) + Minutes(mid, to);
    MinutePeaksSplit(log, edges, logical, from, Minutes(from, mid), Minutes(mid, to), forward);
  }

  lemma MinutesReach(from: Time, to: Time)
    requires from % MINUTE == 0 && to % MINUTE == 0 && from <= to
    ensures After(from, 6 * Minutes(from, to)) == to
  {
    MinutesSpan(from, to);
    AfterIs(from, 6 * Minutes(from, to));
  }

  lemma CoveredByHours(
    hours: Rollup, log: Raw, edges: EdgeMap, logical: EdgeKey, from: Time, end: Time, forward: bool,
    hourCursor: Cursor, deletedBefore: Cursor)
    requires HoursHold(hours, log, edges, hourCursor, deletedBefore)
    requires forall r | r in hours :: r.0 in edges && edges[r.0] == Mapping(r.0, false)
    requires hourCursor.Some? && hourCursor.value % HOUR == 0 && !Reached(deletedBefore, from)
    requires from < end <= hourCursor.value
    ensures HourFrom(from) % MINUTE == 0 && HourFrom(end) % MINUTE == 0 && HourFrom(from) <= HourFrom(end)
    ensures end == hourCursor.value ==> HourFrom(end) == end
    ensures HourLayer(hours, edges, logical, HourFrom(from), Hours(HourFrom(from), end), forward)
         == MinutePeaks(log, edges, logical, HourFrom(from), Minutes(HourFrom(from), HourFrom(end)), forward)
  {
    HourIsMinute(HourFrom(from));
    HourIsMinute(HourFrom(end));
    HourWithin(from, HourFrom(end));
    HourWithin(end, hourCursor.value);
    HoursPart(hours, log, edges, logical, HourFrom(from), end, forward, hourCursor, deletedBefore);
  }

  /** What the covered layers, hours and minutes, give for a window that they cover to its end. */
  lemma CoveredPart(
    minutes: Rollup, hours: Rollup, edges: EdgeMap, minuteCursor: Cursor, hourCursor: Cursor, log: Raw,
    deletedBefore: Cursor, logical: EdgeKey, from: Time, end: Time, forward: bool)
    requires LayersHold(minutes, hours, log, edges, minuteCursor, hourCursor, deletedBefore)
    requires forall r | r in hours :: r.0 in edges && edges[r.0] == Mapping(r.0, false)
    requires Cursors(minuteCursor, hourCursor) && !Reached(deletedBefore, from)
    requires from < end && minuteCursor.Some? && end <= minuteCursor.value
    ensures
      var hourEnd := Clamp(hourCursor, from, end);
      var start := if from < hourEnd then HourFrom(from) else MinuteFrom(from);
      var stop := if hourEnd < end then MinuteFrom(end) else HourFrom(end);
      && start % MINUTE == 0 && stop % MINUTE == 0 && start <= stop
      && CoveredTotal(minutes, hours, edges, hourCursor, logical, from, end, forward)
      == MinutePeaks(log, edges, logical, start, Minutes(start, stop), forward)
  {
    var hourEnd := Clamp(hourCursor, from, end);
    MinuteWithin(end, minuteCursor.value);
    if hourCursor.Some? {
      HourIsMinute(hourCursor.value);
    }
    if from < hourEnd {
      CoveredByHours(hours, log, edges, logical, from, hourEnd, forward, hourCursor, deletedBefore);
      if hourEnd < end {
        MinutesPart(minutes, log, edges, logical, hourEnd, end, forward, minuteCursor, hourCursor);
        MinutesJoin(log, edges, logical, HourFrom(from), hourEnd, MinuteFrom(end), forward);
      }
    } else {
      MinuteWithin(from, MinuteFrom(end));
      MinutesPart(minutes, log, edges, logical, MinuteFrom(from), end, forward, minuteCursor, hourCursor);
    }
  }

  /** A bucket that starts at or before an aligned end. */
  lemma HourWithin(t: Time, end: Time)
    requires t <= end && end % HOUR == 0
    ensures HourFrom(t) <= end && (t == end ==> HourFrom(t) == end)
  {
  }

  lemma MinuteWithin(t: Time, end: Time)
    requires t <= end && end % MINUTE == 0
    ensures MinuteFrom(t) <= end && (t == end ==> MinuteFrom(t) == end)
  {
  }

  lemma TenWithin(t: Time, end: Time)
    requires t <= end
    ensures TenFrom(t) <= TenFrom(end)
  {
  }

  /** What the three queries of a window add up to. */
  function WindowTotal(
    raw: Raw, minutes: Rollup, hours: Rollup, edges: EdgeMap, minuteCursor: Cursor, hourCursor: Cursor,
    logical: EdgeKey, from: Time, to: Time, forward: bool): nat
  {
    var hourEnd := Clamp(hourCursor, from, to);
    var minuteEnd := Clamp(minuteCursor, hourEnd, to);
    (if from < hourEnd
     then HourLayer(hours, edges, logical, HourFrom(from), Hours(HourFrom(from), hourEnd), forward) else 0)
    + (if hourEnd < minuteEnd
       then MinuteLayer(minutes, edges, logical, MinuteFrom(hourEnd), Minutes(MinuteFrom(hourEnd), minuteEnd), forward)
       else 0)
    + (if minuteEnd < to
       then RawLayer(raw, edges, logical, TenFrom(minuteEnd), Tens(TenFrom(minuteEnd), to), forward) else 0)
  }

  /** It is the layered total of the recorded traffic, from the first bucket of the window to the last. */
  ghost predicate Stitches(
    total: nat, log: Raw, edges: EdgeMap, minuteCursor: Cursor, hourCursor: Cursor, logical: EdgeKey, from: Time,
    to: Time, forward: bool)
    requires from < to
  {
    var start, end := FirstBucket(minuteCursor, hourCursor, from, to), EndBucket(minuteCursor, hourCursor, from, to);
    var covered := CoveredEnd(minuteCursor, hourCursor, from, to);
    && start <= covered <= end && start % TEN == 0 && covered == After(start, 6 * Minutes(start, covered))
    && total == Layered(log, edges, logical, start, Minutes(start, covered), Tens(covered, end), forward)
  }

  /** A window of which nothing is covered. */
  lemma StitchedBare(
    raw: Raw, minutes: Rollup, hours: Rollup, edges: EdgeMap, minuteCursor: Cursor, hourCursor: Cursor, log: Raw,
    logical: EdgeKey, from: Time, to: Time, forward: bool)
    requires Intact(raw, log, minuteCursor) && Cursors(minuteCursor, hourCursor) && from < to
    requires Clamp(minuteCursor, from, to) == from
    ensures Stitches(WindowTotal(raw, minutes, hours, edges, minuteCursor, hourCursor, logical, from, to, forward),
                     log, edges, minuteCursor, hourCursor, logical, from, to, forward)
  {
    var start := FirstBucket(minuteCursor, hourCursor, from, to);
    TenWithin(from, to);
    TensPart(raw, log, edges, logical, start, to, forward, minuteCursor);
    assert Minutes(start, start) == 0;
  }

  /** The ten-second buckets after what is covered. */
  lemma BareRest(
    raw: Raw, edges: EdgeMap, minuteCursor: Cursor, log: Raw, logical: EdgeKey, start: Time, minuteEnd: Time, to: Time,
    forward: bool)
    requires Intact(raw, log, minuteCursor) && start % MINUTE == 0 && minuteEnd % MINUTE == 0
    requires start <= minuteEnd < to && minuteCursor == Some(minuteEnd)
    ensures MinutePeaks(log, edges, logical, start, Minutes(start, minuteEnd), forward)
          + RawLayer(raw, edges, logical, TenFrom(minuteEnd), Tens(TenFrom(minuteEnd), to), forward)
         == Layered(log, edges, logical, start, Minutes(start, minuteEnd), Tens(minuteEnd, TenFrom(to)), forward)
  {
    MinuteIsTen(minuteEnd);
    TenWithin(minuteEnd, to);
    TensPart(raw, log, edges, logical, minuteEnd, to, forward, minuteCursor);
    MinutesReach(start, minuteEnd);
  }

  /** What the hour and the minute layer give for a window of which they cover the part to `end`. */
  function CoveredTotal(
    minutes: Rollup, hours: Rollup, edges: EdgeMap, hourCursor: Cursor, logical: EdgeKey, from: Time, end: Time,
    forward: bool): nat
  {
    var hourEnd := Clamp(hourCursor, from, end);
    (if from < hourEnd
     then HourLayer(hours, edges, logical, HourFrom(from), Hours(HourFrom(from), hourEnd), forward) else 0)
    + (if hourEnd < end
       then MinuteLayer(minutes, edges, logical, MinuteFrom(hourEnd), Minutes(MinuteFrom(hourEnd), end), forward)
       else 0)
  }

  /** Where the layers of a window meet that is covered to within, */
  lemma HalfEnds(minuteCursor: Cursor, hourCursor: Cursor, from: Time, to: Time)
    requires Cursors(minuteCursor, hourCursor) && from < Clamp(minuteCursor, from, to) < to
    ensures var minuteEnd := Clamp(minuteCursor, from, to);
      var hourEnd := Clamp(hourCursor, from, minuteEnd);
      && minuteCursor == Some(minuteEnd) && minuteEnd % MINUTE == 0
      && Clamp(hourCursor, from, to) == hourEnd && Clamp(minuteCursor, hourEnd, to) == minuteEnd
      && FirstBucket(minuteCursor, hourCursor, from, to)
        == (if from < hourEnd then HourFrom(from) else MinuteFrom(from))
      && (if hourEnd < minuteEnd then MinuteFrom(minuteEnd) else HourFrom(minuteEnd)) == minuteEnd
      && EndBucket(minuteCursor, hourCursor, from, to) == TenFrom(to)
      && CoveredEnd(minuteCursor, hourCursor, from, to) == minuteEnd
  {
  }

  /** and of one that is covered to its end. */
  lemma WholeEnds(minuteCursor: Cursor, hourCursor: Cursor, from: Time, to: Time)
    requires Cursors(minuteCursor, hourCursor) && from < to == Clamp(minuteCursor, from, to)
    ensures var hourEnd := Clamp(hourCursor, from, to);
      && minuteCursor.Some? && to <= minuteCursor.value && Clamp(minuteCursor, hourEnd, to) == to
      && FirstBucket(minuteCursor, hourCursor, from, to)
        == (if from < hourEnd then HourFrom(from) else MinuteFrom(from))
      && EndBucket(minuteCursor, hourCursor, from, to) == (if hourEnd < to then MinuteFrom(to) else HourFrom(to))
      && CoveredEnd(minuteCursor, hourCursor, from, to) == EndBucket(minuteCursor, hourCursor, from, to)
  {
  }

  lemma StitchedHalf(
    raw: Raw, minutes: Rollup, hours: Rollup, edges: EdgeMap, minuteCursor: Cursor, hourCursor: Cursor, log: Raw,
    deletedBefore: Cursor, logical: EdgeKey, from: Time, to: Time, forward: bool)
    requires LayersHold(minutes, hours, log, edges, minuteCursor, hourCursor, deletedBefore)
    requires Intact(raw, log, minuteCursor)
    requires forall r | r in hours :: r.0 in edges && edges[r.0] == Mapping(r.0, false)
    requires Cursors(minuteCursor, hourCursor) && !Reached(deletedBefore, from)
    requires from < Clamp(minuteCursor, from, to) < to
    ensures Stitches(WindowTotal(raw, minutes, hours, edges, minuteCursor, hourCursor, logical, from, to, forward),
                     log, edges, minuteCursor, hourCursor, logical, from, to, forward)
  {
    var minuteEnd := Clamp(minuteCursor, from, to);
    HalfEnds(minuteCursor, hourCursor, from, to);
    CoveredPart(minutes, hours, edges, minuteCursor, hourCursor, log, deletedBefore, logical, from, minuteEnd, forward);
    var start := FirstBucket(minuteCursor, hourCursor, from, to);
    MinuteIsTen(start);
    BareRest(raw, edges, minuteCursor, log, logical, start, minuteEnd, to, forward);
    MinutesReach(start, minuteEnd);
    assert WindowTotal(raw, minutes, hours, edges, minuteCursor, hourCursor, logical, from, to, forward)
        == CoveredTotal(minutes, hours, edges, hourCursor, logical, from, minuteEnd, forward)
         + RawLayer(raw, edges, logical, TenFrom(minuteEnd), Tens(TenFrom(minuteEnd), to), forward);
  }

  lemma StitchedWhole(
    raw: Raw, minutes: Rollup, hours: Rollup, edges: EdgeMap, minuteCursor: Cursor, hourCursor: Cursor, log: Raw,
    deletedBefore: Cursor, logical: EdgeKey, from: Time, to: Time, forward: bool)
    requires LayersHold(minutes, hours, log, edges, minuteCursor, hourCursor, deletedBefore)
    requires forall r | r in hours :: r.0 in edges && edges[r.0] == Mapping(r.0, false)
    requires Cursors(minuteCursor, hourCursor) && !Reached(deletedBefore, from)
    requires from < to == Clamp(minuteCursor, from, to)
    ensures Stitches(WindowTotal(raw, minutes, hours, edges, minuteCursor, hourCursor, logical, from, to, forward),
                     log, edges, minuteCursor, hourCursor, logical, from, to, forward)
  {
    WholeEnds(minuteCursor, hourCursor, from, to);
    CoveredPart(minutes, hours, edges, minuteCursor, hourCursor, log, deletedBefore, logical, from, to, forward);
    var start, end := FirstBucket(minuteCursor, hourCursor, from, to), EndBucket(minuteCursor, hourCursor, from, to);
    MinuteIsTen(start);
    MinutesReach(start, end);
    assert WindowTotal(raw, minutes, hours, edges, minuteCursor, hourCursor, logical, from, to, forward)
        == CoveredTotal(minutes, hours, edges, hourCursor, logical, from, to, forward);
    NothingAfter(log, edges, logical, start, end, forward);
  }

  lemma NothingAfter(log: Raw, edges: EdgeMap, logical: EdgeKey, start: Time, end: Time, forward: bool)
    ensures Layered(log, edges, logical, start, Minutes(start, end), Tens(end, end), forward)
         == MinutePeaks(log, edges, logical, start, Minutes(start, end), forward)
  {
  }

  /** The three parts of a window follow on one another. */
  lemma StitchedFrom(
    raw: Raw, minutes: Rollup, hours: Rollup, edges: EdgeMap, minuteCursor: Cursor, hourCursor: Cursor, log: Raw,
    deletedBefore: Cursor, logical: EdgeKey, from: Time, to: Time, forward: bool)
    requires LayersHold(minutes, hours, log, edges, minuteCursor, hourCursor, deletedBefore)
    requires Intact(raw, log, minuteCursor)
    requires forall r | r in hours :: r.0 in edges && edges[r.0] == Mapping(r.0, false)
    requires Cursors(minuteCursor, hourCursor) && !Reached(deletedBefore, from) && from < to
    ensures Stitches(WindowTotal(raw, minutes, hours, edges, minuteCursor, hourCursor, logical, from, to, forward),
                     log, edges, minuteCursor, hourCursor, logical, from, to, forward)
  {
    if Clamp(minuteCursor, from, to) == from {
      StitchedBare(raw, minutes, hours, edges, minuteCursor, hourCursor, log, logical, from, to, forward);
    } else if Clamp(minuteCursor, from, to) < to {
      StitchedHalf(
        raw, minutes, hours, edges, minuteCursor, hourCursor, log, deletedBefore, logical, from, to, forward);
    } else {
      StitchedWhole(
        raw, minutes, hours, edges, minuteCursor, hourCursor, log, deletedBefore, logical, from, to, forward);
    }
  }

  lemma {:induction false} TenPeaksAgree(
    raw: Raw, log: Raw, edges: EdgeMap, logical: EdgeKey, from: Time, n: nat, forward: bool)
    requires forall k: (EdgeKey, Time) | from <= k.1 :: (k in raw <==> k in log) && (k in raw ==> raw[k] == log[k])
    ensures TenPeaks(raw, edges, logical, from, n, forward) == TenPeaks(log, edges, logical, from, n, forward)
    decreases n
  {
    if n > 0 {
      forall p | p in PhysicalOf(edges, logical)
        ensures Share(raw, edges, p, from, 1, forward) == Share(log, edges, p, from, 1, forward)
      {
        SumsAgree(raw, log, p, from, 1, forward != edges[p].reversed);
      }
      assert Shares(raw, edges, logical, from, 1, forward) == Shares(log, edges, logical, from, 1, forward);
      TenPeaksAgree(raw, log, edges, logical, from + TEN, n - 1, forward);
    }
  }

  function GoneBefore(before: Cursor, cutoff: Time): Cursor {
    Some(if before.None? then cutoff else Later(before.value, cutoff))
  }

  /** Deleting what is covered and past its retention. */
  lemma DeletionHolds(
    raw: Raw, minutes: Rollup, hours: Rollup, log: Raw, edges: EdgeMap, minuteCursor: Cursor, hourCursor: Cursor,
    deletedBefore: Cursor, behind: bool, rawCutoff: Time, minuteCutoff: Time, hourCutoff: Time)
    requires Aligned(raw, minutes, hours, edges, minuteCursor, hourCursor) && Intact(raw, log, minuteCursor)
    requires minuteCursor.Some? && rawCutoff <= minuteCursor.value
    requires hourCursor.Some? && minuteCutoff <= hourCursor.value
    requires !behind ==> MinutesHold(minutes, log, minuteCursor, hourCursor)
                         && HoursHold(hours, log, edges, hourCursor, deletedBefore)
    ensures Aligned(KeptRaw(raw, rawCutoff), KeptRows(minutes, minuteCutoff), KeptRows(hours, hourCutoff), edges,
                    minuteCursor, hourCursor)
    ensures Intact(KeptRaw(raw, rawCutoff), log, minuteCursor)
    ensures !behind ==> MinutesHold(KeptRows(minutes, minuteCutoff), log, minuteCursor, hourCursor)
    ensures !behind ==> HoursHold(KeptRows(hours, hourCutoff), log, edges, hourCursor,
      GoneBefore(deletedBefore, hourCutoff))
  {
    if !behind {
      KeptMinutesHold(minutes, log, minuteCursor, hourCursor, minuteCutoff);
      KeptHoursHold(hours, log, edges, hourCursor, deletedBefore, hourCutoff);
    }
  }

  lemma DeletionStands(
    raw: Raw, minutes: Rollup, hours: Rollup, edges: EdgeMap, rule: Rule, minuteCursor: Cursor, hourCursor: Cursor,
    log: Raw, deletedBefore: Cursor, behind: bool, rawCutoff: Time, minuteCutoff: Time, hourCutoff: Time)
    requires Standing(raw, minutes, hours, edges, rule, minuteCursor, hourCursor, log, deletedBefore, behind)
    requires minuteCursor.Some? && rawCutoff <= minuteCursor.value
    requires hourCursor.Some? && minuteCutoff <= hourCursor.value
    ensures Standing(KeptRaw(raw, rawCutoff), KeptRows(minutes, minuteCutoff), KeptRows(hours, hourCutoff), edges, rule,
                     minuteCursor, hourCursor, log, GoneBefore(deletedBefore, hourCutoff), behind)
  {
    DeletionHolds(raw, minutes, hours, log, edges, minuteCursor, hourCursor, deletedBefore, behind,
                  rawCutoff, minuteCutoff, hourCutoff);
  }

  lemma NothingToDelete(raw: Raw, table: Rollup, rawCutoff: Time, cutoff: Time)
    ensures (forall k | k in raw :: k.1 >= rawCutoff) ==> KeptRaw(raw, rawCutoff) == raw
    ensures (forall k | k in table :: k.1 >= cutoff) ==> KeptRows(table, cutoff) == table
  {
  }

  lemma KeptAt(table: Rollup, cutoff: Time, e: EdgeKey, t: Time, forward: bool)
    requires t >= cutoff
    ensures Rolled(KeptRows(table, cutoff), e, t, forward) == Rolled(table, e, t, forward)
  {
  }

  lemma KeptMinutesHold(minutes: Rollup, log: Raw, minuteCursor: Cursor, hourCursor: Cursor, cutoff: Time)
    requires MinutesHold(minutes, log, minuteCursor, hourCursor) && hourCursor.Some? && cutoff <= hourCursor.value
    ensures MinutesHold(KeptRows(minutes, cutoff), log, minuteCursor, hourCursor)
  {
    forall e, m, forward: bool | m % MINUTE == 0 && Reached(minuteCursor, m) && !Reached(hourCursor, m)
      ensures Rolled(KeptRows(minutes, cutoff), e, m, forward) == RawSum(log, e, m, 6, forward)
    {
      KeptAt(minutes, cutoff, e, m, forward);
    }
  }

  lemma KeptHoursHold(hours: Rollup, log: Raw, edges: EdgeMap, hourCursor: Cursor, deletedBefore: Cursor, cutoff: Time)
    requires HoursHold(hours, log, edges, hourCursor, deletedBefore)
    ensures HoursHold(KeptRows(hours, cutoff), log, edges, hourCursor, GoneBefore(deletedBefore, cutoff))
  {
    forall e, h, forward: bool | h % HOUR == 0 && Reached(hourCursor, h)
      && !Reached(GoneBefore(deletedBefore, cutoff), h)
      ensures Rolled(KeptRows(hours, cutoff), e, h, forward) == MinutePeaks(log, edges, e, h, 60, forward)
    {
      KeptAt(hours, cutoff, e, h, forward);
    }
  }

  function RawCutoff(now: Time, covered: Time): Time {
    Earlier(now - RAW_RETENTION, covered)
  }

  function MinuteCutoff(now: Time, covered: Time): Time {
    Earlier(now - MINUTE_RETENTION, covered)
  }

  function HourEnd(now: Time, covered: Time): (end: Time)
    ensures end % HOUR == 0 && end <= covered
  {
    Earlier(HourOf(now), HourOf(covered))
  }

  predicate NotBack(before: Cursor, after: Cursor) {
    before.Some? ==> after.Some? && before.value <= after.value
  }

  /** The cursor is where it was, if that is past the end, and at most the end otherwise; and from a cursor
      short of the end it reaches the end. */
  predicate Advanced(before: Cursor, after: Cursor, end: Time) {
    && after.Some? && after.value >= end
    && if before.Some? then after.value == Later(before.value, end) else after.value == end
  }

  /** No row is lost or changed. */
  ghost predicate Keeps(before: Rollup, after: Rollup) {
    forall k | k in before :: k in after && after[k] == before[k]
  }

  /** SELECT MIN(bucket_start). */
  method Earliest(keys: set<(EdgeKey, Time)>) returns (first: Option<Time>)
    ensures first.None? <==> keys == {}
    ensures first.Some? ==> forall k | k in keys :: first.value <= k.1
  {
    first := None;
    var todo := keys;
    while todo != {}
      invariant todo <= keys
      invariant first.None? ==> todo == keys
      invariant first.Some? ==> keys != {} && forall k | k in keys && k !in todo :: first.value <= k.1
    {
      var k :| k in todo;
      todo := todo - {k};
      first := Some(if first.None? then k.1 else Earlier(first.value, k.1));
    }
  }

  /** Before the first row there is nothing to cover. */
  lemma NothingBefore(raw: Raw, log: Raw, start: Time)
    requires Intact(raw, log, None) && start % MINUTE == 0
    requires forall k | k in raw :: k.1 >= start
    ensures MinutesHold(map[], log, Some(start), None)
    ensures Intact(raw, log, Some(start))
  {
    forall e, m, forward: bool | m % MINUTE == 0 && m < start ensures RawSum(log, e, m, 6, forward) == 0 {
      MinuteFits(m, start);
      forall t | m <= t < m + 6 * 10_000_000_000 ensures (e, t) !in log {
        var k := (e, t);
        assert k in raw <==> k in log;
      }
      NoRowsNoSum(log, e, m, 6, forward);
    }
  }

  lemma NoHoursBefore(
    minutes: Rollup, hours: Rollup, log: Raw, edges: EdgeMap, minuteCursor: Cursor, start: Time, deletedBefore: Cursor)
    requires start % HOUR == 0 && minuteCursor.Some? && start <= minuteCursor.value
    requires MinutesHold(minutes, log, minuteCursor, None) && hours == map[]
    requires forall k | k in minutes :: k.1 >= start
    ensures HoursHold(hours, log, edges, Some(start), deletedBefore)
    ensures MinutesHold(minutes, log, minuteCursor, Some(start))
  {
    forall e, h, forward: bool | h % HOUR == 0 && h < start ensures MinutePeaks(log, edges, e, h, 60, forward) == 0 {
      HourFits(h, start);
      HourIsMinute(h);
      MinuteLayerIsPeaks(minutes, log, edges, e, h, 60, forward, minuteCursor, None);
      forall p, t | p in PhysicalOf(edges, e) && h <= t < h + 60 * 60_000_000_000 ensures (p, t) !in minutes {
        var k := (p, t);
        assert k.1 < start;
      }
      NoRowsNoLayer(minutes, edges, e, h, 60, forward);
    }
  }

  /** One observer's flow added to its bucket. */
  function Added(raw: Raw, e: EdgeKey, t: Time, observer: NodeId, flow: Flow): Raw {
    var seen := if (e, t) in raw then raw[(e, t)] else map[];
    var before := if observer in seen then seen[observer] else Flow(0, 0);
    raw[(e, t) := seen[observer := Flow(before.aToB + flow.aToB, before.bToA + flow.bToA)]]
  }

  lemma AddedMapped(
    raw: Raw, minutes: Rollup, edges: EdgeMap, rule: Rule, log: Raw, e: EdgeKey, t: Time, observer: NodeId, flow: Flow)
    requires Mapped(edges, rule, raw, minutes, log)
    ensures var more := if rule(e).Some? then edges[e := rule(e).value] else edges;
      && Mapped(more, rule, Added(raw, e, t, observer, flow), minutes, Added(log, e, t, observer, flow))
      && Grows(edges, more, log)
  {
    forall s | (e, s) in log && rule(e).Some? ensures e in edges {
      var k := (e, s);
      assert k.0 == e;
    }
  }

  lemma AddedIntact(raw: Raw, log: Raw, cursor: Cursor, e: EdgeKey, t: Time, observer: NodeId, flow: Flow)
    requires Intact(raw, log, cursor)
    ensures Intact(Added(raw, e, t, observer, flow), Added(log, e, t, observer, flow), cursor)
  {
  }

  /** What is recorded at or after the minute cursor changes no covered minute and no covered hour. */
  lemma AddedHolds(
    minutes: Rollup, hours: Rollup, log: Raw, edges: EdgeMap, minuteCursor: Cursor, hourCursor: Cursor,
    deletedBefore: Cursor, e: EdgeKey, t: Time, observer: NodeId, flow: Flow)
    requires !Reached(minuteCursor, t)
    requires minuteCursor.Some? ==> minuteCursor.value % MINUTE == 0
    requires hourCursor.Some? ==>
      hourCursor.value % HOUR == 0 && minuteCursor.Some? && hourCursor.value <= minuteCursor.value
    requires MinutesHold(minutes, log, minuteCursor, hourCursor)
      && HoursHold(hours, log, edges, hourCursor, deletedBefore)
    ensures MinutesHold(minutes, Added(log, e, t, observer, flow), minuteCursor, hourCursor)
    ensures HoursHold(hours, Added(log, e, t, observer, flow), edges, hourCursor, deletedBefore)
  {
    var after := Added(log, e, t, observer, flow);
    forall p, m, forward: bool | m % MINUTE == 0 && Reached(minuteCursor, m) && !Reached(hourCursor, m)
      ensures Rolled(minutes, p, m, forward) == RawSum(after, p, m, 6, forward)
    {
      MinuteFits(m, minuteCursor.value);
      SumsKeep(log, after, p, m, 6, forward, t);
    }
    forall p, h, forward: bool | h % HOUR == 0 && Reached(hourCursor, h) && !Reached(deletedBefore, h)
      ensures Rolled(hours, p, h, forward) == MinutePeaks(after, edges, p, h, 60, forward)
    {
      HourFits(h, hourCursor.value);
      PeaksKeep(log, after, edges, p, h, 60, forward, t);
    }
  }

  /** Between the two logs only one bucket of one edge differs. */
  ghost predicate DifferAt(log: Raw, after: Raw, e: EdgeKey, t: Time) {
    forall k: (EdgeKey, Time) | k != (e, t) :: (k in log <==> k in after) && (k in log ==> log[k] == after[k])
  }

  /** A sum over `n` buckets, of which the one that differs is the `i`-th or none, changes as that bucket does. */
  lemma {:induction false} SumDiffers(
    log: Raw, after: Raw, e: EdgeKey, from: Time, n: nat, i: nat, forward: bool)
    requires DifferAt(log, after, e, After(from, i))
    ensures RawSum(after, e, from, n, forward) - RawSum(log, e, from, n, forward)
         == if i < n then Bucket(after, e, After(from, i), forward) - Bucket(log, e, After(from, i), forward) else 0
    decreases n
  {
    if n > 0 {
      if i == 0 {
        SumBeyond(log, after, e, from + TEN, n - 1, from, forward);
      } else {
        AfterIs(from, i);
        SumDiffers(log, after, e, from + TEN, n - 1, i - 1, forward);
      }
    }
  }

  lemma {:induction false} SumBeyond(
    log: Raw, after: Raw, e: EdgeKey, from: Time, n: nat, t: Time, forward: bool)
    requires DifferAt(log, after, e, t) && t < from
    ensures RawSum(after, e, from, n, forward) == RawSum(log, e, from, n, forward)
    decreases n
  {
    if n > 0 {
      SumBeyond(log, after, e, from + TEN, n - 1, t, forward);
    }
  }

  /** Other edges' sums stay. */
  lemma {:induction false} SumElsewhere(
    log: Raw, after: Raw, e: EdgeKey, t: Time, p: EdgeKey, from: Time, n: nat, forward: bool)
    requires DifferAt(log, after, e, t)
    requires p != e || Bucket(after, e, t, forward) == Bucket(log, e, t, forward)
    ensures RawSum(after, p, from, n, forward) == RawSum(log, p, from, n, forward)
    decreases n
  {
    if n > 0 {
      SumElsewhere(log, after, e, t, p, from + TEN, n - 1, forward);
    }
  }

  /** Which of the six ten-second buckets of its minute a bucket is. */
  lemma PlaceInMinute(t: Time) returns (i: nat)
    requires t % TEN == 0
    ensures i < 6 && After(MinuteOf(t), i) == t
  {
    var m := MinuteOf(t);
    MinuteIsTen(m);
    i := t / TEN - m / TEN;
    AfterIs(m, i);
  }

  /** Which of the 360 ten-second buckets of its hour a bucket is. */
  lemma PlaceInHour(t: Time) returns (i: nat)
    requires t % TEN == 0
    ensures i < 360 && After(HourOf(t), i) == t
  {
    var h := HourOf(t);
    HourIsMinute(h);
    MinuteIsTen(h);
    i := t / TEN - h / TEN;
    AfterIs(h, i);
  }

  /** The bucket says something else than before, in one direction at least. */
  predicate Counts(log: Raw, after: Raw, e: EdgeKey, t: Time) {
    Bucket(after, e, t, true) != Bucket(log, e, t, true) || Bucket(after, e, t, false) != Bucket(log, e, t, false)
  }

  /** Where an edge is all there is to its logical edge, the minutes that hold the bucket change as it does. */
  lemma PeaksDiffer(
    log: Raw, after: Raw, edges: EdgeMap, e: EdgeKey, from: Time, k: nat, i: nat, forward: bool)
    requires DifferAt(log, after, e, After(from, i)) && i < 6 * k && Alone(log, edges, e) && Alone(after, edges, e)
    ensures var was, now :=
        MinutePeaks(log, edges, edges[e].logical, from, k, forward),
        MinutePeaks(after, edges, edges[e].logical, from, k, forward);
      var f := forward != edges[e].reversed;
      was == now <==> Bucket(log, e, After(from, i), f) == Bucket(after, e, After(from, i), f)
  {
    OnlyShareOfMinutes(log, edges, e, from, k, forward);
    OnlyShareOfMinutes(after, edges, e, from, k, forward);
    SumDiffers(log, after, e, from, 6 * k, i, forward != edges[e].reversed);
  }

  lemma SharesUnchanged(
    log: Raw, after: Raw, edges: EdgeMap, e: EdgeKey, t: Time, logical: EdgeKey, from: Time, forward: bool)
    requires DifferAt(log, after, e, t) && !Counts(log, after, e, t)
    ensures Shares(after, edges, logical, from, 6, forward) == Shares(log, edges, logical, from, 6, forward)
  {
    forall p | p in PhysicalOf(edges, logical)
      ensures Share(after, edges, p, from, 6, forward) == Share(log, edges, p, from, 6, forward)
    {
      SumElsewhere(log, after, e, t, p, from, 6, forward != edges[p].reversed);
    }
  }

  lemma {:induction false} PeaksUnchanged(
    log: Raw, after: Raw, edges: EdgeMap, e: EdgeKey, t: Time, logical: EdgeKey, from: Time, k: nat, forward: bool)
    requires DifferAt(log, after, e, t) && !Counts(log, after, e, t)
    ensures MinutePeaks(after, edges, logical, from, k, forward) == MinutePeaks(log, edges, logical, from, k, forward)
    decreases k
  {
    if k > 0 {
      SharesUnchanged(log, after, edges, e, t, logical, from, forward);
      PeaksUnchanged(log, after, edges, e, t, logical, from + MINUTE, k - 1, forward);
    }
  }

  /** Hours away from the bucket's own do not see it. */
  lemma {:induction false} PeaksElsewhere(
    log: Raw, after: Raw, edges: EdgeMap, e: EdgeKey, t: Time, logical: EdgeKey, from: Time, k: nat, forward: bool)
    requires DifferAt(log, after, e, t) && (t < from || from + k * 60_000_000_000 <= t)
    ensures MinutePeaks(after, edges, logical, from, k, forward) == MinutePeaks(log, edges, logical, from, k, forward)
    decreases k
  {
    if k > 0 {
      forall p | p in PhysicalOf(edges, logical)
        ensures Share(after, edges, p, from, 6, forward) == Share(log, edges, p, from, 6, forward)
      {
        MinuteElsewhere(log, after, e, t, p, from, forward != edges[p].reversed);
      }
      assert Shares(after, edges, logical, from, 6, forward) == Shares(log, edges, logical, from, 6, forward);
      PeaksElsewhere(log, after, edges, e, t, logical, from + MINUTE, k - 1, forward);
    }
  }

  lemma MinuteElsewhere(log: Raw, after: Raw, e: EdgeKey, t: Time, p: EdgeKey, from: Time, forward: bool)
    requires DifferAt(log, after, e, t) && (t < from || from + MINUTE <= t)
    ensures RawSum(after, p, from, 6, forward) == RawSum(log, p, from, 6, forward)
  {
    if t < from {
      if p == e {
        SumBeyond(log, after, e, from, 6, t, forward);
      } else {
        SumElsewhere(log, after, e, t, p, from, 6, forward);
      }
    } else {
      SumBefore(log, after, e, t, p, from, 6, forward);
    }
  }

  lemma {:induction false} SumBefore(
    log: Raw, after: Raw, e: EdgeKey, t: Time, p: EdgeKey, from: Time, n: nat, forward: bool)
    requires DifferAt(log, after, e, t) && from + n * 10_000_000_000 <= t
    ensures RawSum(after, p, from, n, forward) == RawSum(log, p, from, n, forward)
    decreases n
  {
    if n > 0 {
      SumBefore(log, after, e, t, p, from + TEN, n - 1, forward);
    }
  }

  /** Both layers hold what was recorded. */
  ghost predicate LayersHold(
    minutes: Rollup, hours: Rollup, log: Raw, edges: EdgeMap, minuteCursor: Cursor, hourCursor: Cursor,
    deletedBefore: Cursor)
  {
    MinutesHold(minutes, log, minuteCursor, hourCursor) && HoursHold(hours, log, edges, hourCursor, deletedBefore)
  }

  /** The bucket's hour is covered, and may be gone already. */
  predicate Gone(hourCursor: Cursor, deletedBefore: Cursor, t: Time) {
    Reached(hourCursor, HourOf(t)) && Reached(deletedBefore, HourOf(t))
  }

  ghost predicate Cursors(minuteCursor: Cursor, hourCursor: Cursor) {
    && (minuteCursor.Some? ==> minuteCursor.value % MINUTE == 0)
    && (hourCursor.Some? ==>
      hourCursor.value % HOUR == 0 && minuteCursor.Some? && hourCursor.value <= minuteCursor.value)
  }

  /** Traffic of whatever observer, in a new bucket or an old one, is in the layers if it comes in time, if the
      bucket says the same as before, or if its hour is past retention. */
  lemma InTimeHolds(
    minutes: Rollup, hours: Rollup, log: Raw, after: Raw, edges: EdgeMap, minuteCursor: Cursor, hourCursor: Cursor,
    deletedBefore: Cursor, e: EdgeKey, t: Time)
    requires Cursors(minuteCursor, hourCursor) && DifferAt(log, after, e, t)
    requires LayersHold(minutes, hours, log, edges, minuteCursor, hourCursor, deletedBefore)
    requires !Reached(minuteCursor, t) || !Counts(log, after, e, t) || Gone(hourCursor, deletedBefore, t)
    ensures LayersHold(minutes, hours, after, edges, minuteCursor, hourCursor, deletedBefore)
  {
    forall p, m, forward: bool | m % MINUTE == 0 && Reached(minuteCursor, m) && !Reached(hourCursor, m)
      ensures Rolled(minutes, p, m, forward) == RawSum(after, p, m, 6, forward)
    {
      if !Counts(log, after, e, t) {
        SumElsewhere(log, after, e, t, p, m, 6, forward);
      } else {
        MinuteFits(m, minuteCursor.value);
        if Reached(minuteCursor, t) {
          HourFits(HourOf(t), hourCursor.value);
        }
        MinuteElsewhere(log, after, e, t, p, m, forward);
      }
    }
    forall p, h, forward: bool | h % HOUR == 0 && Reached(hourCursor, h) && !Reached(deletedBefore, h)
      ensures Rolled(hours, p, h, forward) == MinutePeaks(after, edges, p, h, 60, forward)
    {
      if !Counts(log, after, e, t) {
        PeaksUnchanged(log, after, edges, e, t, p, h, 60, forward);
      } else {
        HourFits(h, hourCursor.value);
        if Reached(minuteCursor, t) {
          assert HourOf(t) < deletedBefore.value <= h;
          HourFits(HourOf(t), h);
        }
        PeaksElsewhere(log, after, edges, e, t, p, h, 60, forward);
      }
    }
  }

  /** What comes behind the minute cursor and changes its bucket is missing from the layer that covers it. */
  lemma LateIsMissing(
    minutes: Rollup, hours: Rollup, log: Raw, after: Raw, edges: EdgeMap, minuteCursor: Cursor, hourCursor: Cursor,
    deletedBefore: Cursor, e: EdgeKey, t: Time)
    requires Cursors(minuteCursor, hourCursor) && DifferAt(log, after, e, t) && t % TEN == 0
    requires LayersHold(minutes, hours, log, edges, minuteCursor, hourCursor, deletedBefore)
    requires Reached(minuteCursor, t) && Counts(log, after, e, t) && !Gone(hourCursor, deletedBefore, t)
    requires Reached(hourCursor, t) ==> Alone(log, edges, e) && Alone(after, edges, e)
    ensures !LayersHold(minutes, hours, after, edges, minuteCursor, hourCursor, deletedBefore)
  {
    var forward := Bucket(after, e, t, true) != Bucket(log, e, t, true);
    if Reached(hourCursor, t) {
      var logical, f := edges[e].logical, forward != edges[e].reversed;
      var i := PlaceInHour(t);
      PeaksDiffer(log, after, edges, e, HourOf(t), 60, i, f);
      assert Rolled(hours, logical, HourOf(t), f) == MinutePeaks(log, edges, logical, HourOf(t), 60, f);
    } else {
      var m := MinuteOf(t);
      var i := PlaceInMinute(t);
      if Reached(hourCursor, m) {
        HourIsMinute(hourCursor.value);
        MinuteFits(m, hourCursor.value);
      }
      SumDiffers(log, after, e, m, 6, i, forward);
      assert Rolled(minutes, e, m, forward) == RawSum(log, e, m, 6, forward);
    }
  }

  /** Whatever bucket traffic is added to, and whoever observed it: the layers still hold what was recorded exactly
      when it is not behind the minute cursor, does not change what its bucket says, or belongs to an hour past
      retention. Behind the hour cursor that is exact where the edge is all there is to its logical edge: traffic
      below another physical edge's does not show in a maximum. */
  lemma LateTrafficIsLostIff(
    minutes: Rollup, hours: Rollup, log: Raw, edges: EdgeMap, minuteCursor: Cursor, hourCursor: Cursor,
    deletedBefore: Cursor, e: EdgeKey, t: Time, observer: NodeId, flow: Flow)
    requires Cursors(minuteCursor, hourCursor) && t % TEN == 0
    requires LayersHold(minutes, hours, log, edges, minuteCursor, hourCursor, deletedBefore)
    ensures var after := Added(log, e, t, observer, flow);
      var kept := !Reached(minuteCursor, t) || !Counts(log, after, e, t) || Gone(hourCursor, deletedBefore, t);
      && (kept ==> LayersHold(minutes, hours, after, edges, minuteCursor, hourCursor, deletedBefore))
      && (!Reached(hourCursor, t) || Alone(log, edges, e) ==>
            (LayersHold(minutes, hours, after, edges, minuteCursor, hourCursor, deletedBefore) <==> kept))
  {
    var after := Added(log, e, t, observer, flow);
    if !Reached(minuteCursor, t) || !Counts(log, after, e, t) || Gone(hourCursor, deletedBefore, t) {
      InTimeHolds(minutes, hours, log, after, edges, minuteCursor, hourCursor, deletedBefore, e, t);
    } else if !Reached(hourCursor, t) || Alone(log, edges, e) {
      LateIsMissing(minutes, hours, log, after, edges, minuteCursor, hourCursor, deletedBefore, e, t);
    }
  }

  /** What a third party saw adds nothing where one of the edge's own ends has spoken. */
  lemma EndsSpeakFirst(log: Raw, e: EdgeKey, t: Time, observer: NodeId, flow: Flow)
    requires (e, t) in log && observer != e.source && observer != e.target
    requires e.source in log[(e, t)] || e.target in log[(e, t)]
    ensures !Counts(log, Added(log, e, t, observer, flow), e, t)
  {
  }
}
