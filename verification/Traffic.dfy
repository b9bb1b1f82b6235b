/** Traffic in ten-second, minute and hour layers (internal/store/history_rollup.go,
    internal/store/history_query.go): what one bucket of an edge amounts to, and how sums over the layers
    compare. */
module Traffic {
  import opened Names
  import opened Canonical

  /** In nanoseconds. */
  const TEN: int := 10_000_000_000
  const MINUTE: int := 60_000_000_000
  const HOUR: int := 3_600_000_000_000

  /** Time.Truncate to ten seconds, to the minute and to the hour. */
  function TenOf(t: Time): (start: Time)
    ensures start <= t < start + TEN && start % TEN == 0
  {
    t - t % TEN
  }

  function MinuteOf(t: Time): (start: Time)
    ensures start <= t < start + MINUTE && start % MINUTE == 0
  {
    t - t % MINUTE
  }

  function HourOf(t: Time): (start: Time)
    ensures start <= t < start + HOUR && start % HOUR == 0
  {
    t - t % HOUR
  }

  /** An hour starts with a minute, and a minute with a ten-second bucket. */
  lemma HourIsMinute(t: Time)
    requires t % HOUR == 0
    ensures t % MINUTE == 0
  {
    assert t == HOUR * (t / HOUR);
    assert t == MINUTE * (60 * (t / HOUR));
  }

  lemma MinuteIsTen(t: Time)
    requires t % MINUTE == 0
    ensures t % TEN == 0
  {
    assert t == MINUTE * (t / MINUTE);
    assert t == TEN * (6 * (t / MINUTE));
  }

  datatype Flow = Flow(aToB: nat, bToA: nat)

  function Part(f: Flow, forward: bool): nat {
    if forward then f.aToB else f.bToA
  }

  // ---------------------------------------------------------------------------------------------
  // Maxima
  // ---------------------------------------------------------------------------------------------

  predicate IsMaximum(m: nat, values: set<nat>) {
    m in values && forall v | v in values :: v <= m
  }

  lemma MaximumExists(values: set<nat>)
    requires values != {}
    ensures exists m :: IsMaximum(m, values)
  {
    var some :| some in values;
    var rest := values - {some};
    assert forall v | v in values :: v == some || v in rest;
    if rest == {} {
      assert IsMaximum(some, values);
    } else {
      MaximumExists(rest);
      var m: nat :| IsMaximum(m, rest);
      assert IsMaximum(if some > m then some else m, values);
    }
  }

  /** SQL's MAX, with 0 for no rows. */
  function MaxOf(values: set<nat>): (m: nat)
    ensures values == {} ==> m == 0
    ensures values != {} ==> IsMaximum(m, values)
  {
    if values == {} then 0
    else
      MaximumExists(values);
      var m: nat :| IsMaximum(m, values);
      m
  }

  // ---------------------------------------------------------------------------------------------
  // The tables
  // ---------------------------------------------------------------------------------------------

  /** traffic_buckets: per edge and ten seconds, what each observer reported. An edge's own ends are in
      its ID. */
  type Raw = map<(EdgeKey, Time), map<NodeId, Flow>>

  /** traffic_rollup_minute by physical edge, traffic_rollup_hour by logical edge. */
  type Rollup = map<(EdgeKey, Time), Flow>

  datatype Mapping = Mapping(logical: EdgeKey, reversed: bool)

  /** history_edge_map: every physical edge's logical edge, and whether its direction is the other one. */
  type EdgeMap = map<EdgeKey, Mapping>

  /** One direction of a bucket without double counting: the sending end's own count, failing that the
      other end's, failing that the largest third-party count. */
  function DedupPart(e: EdgeKey, seen: map<NodeId, Flow>, forward: bool): nat {
    var sender, receiver := if forward then e.source else e.target, if forward then e.target else e.source;
    if sender in seen then Part(seen[sender], forward)
    else if receiver in seen then Part(seen[receiver], forward)
    else MaxOf(set n: NodeId | n in seen && n != sender && n != receiver :: Part(seen[n], forward))
  }

  function Bucket(raw: Raw, e: EdgeKey, t: Time, forward: bool): nat {
    if (e, t) in raw then DedupPart(e, raw[(e, t)], forward) else 0
  }

  function Rolled(rollup: Rollup, e: EdgeKey, t: Time, forward: bool): nat {
    if (e, t) in rollup then Part(rollup[(e, t)], forward) else 0
  }

  function PhysicalOf(edges: EdgeMap, logical: EdgeKey): set<EdgeKey> {
    set p | p in edges && edges[p].logical == logical
  }

  // ---------------------------------------------------------------------------------------------
  // Sums over successive buckets
  // ---------------------------------------------------------------------------------------------

  /** The start of the n-th ten-second bucket after `from`. */
  function After(from: Time, n: nat): Time
    decreases n
  {
    if n == 0 then from else After(from + TEN, n - 1)
  }

  /** One physical edge's deduplicated raw total over `n` buckets. */
  function RawSum(raw: Raw, e: EdgeKey, from: Time, n: nat, forward: bool): nat
    decreases n
  {
    if n == 0 then 0 else Bucket(raw, e, from, forward) + RawSum(raw, e, from + TEN, n - 1, forward)
  }

  /** What a physical edge adds to its logical edge, in the logical edge's direction. */
  function Share(raw: Raw, edges: EdgeMap, p: EdgeKey, from: Time, n: nat, forward: bool): nat
    requires p in edges
  {
    RawSum(raw, p, from, n, forward != edges[p].reversed)
  }

  /** What several physical edges saw of one logical edge in `n` buckets: the largest share. */
  function Peak(raw: Raw, edges: EdgeMap, logical: EdgeKey, from: Time, n: nat, forward: bool): nat {
    MaxOf(Shares(raw, edges, logical, from, n, forward))
  }

  function Shares(raw: Raw, edges: EdgeMap, logical: EdgeKey, from: Time, n: nat, forward: bool): set<nat> {
    set p | p in PhysicalOf(edges, logical) :: Share(raw, edges, p, from, n, forward)
  }

  /** The sum of ten-second peaks over `n` buckets. */
  function TenPeaks(raw: Raw, edges: EdgeMap, logical: EdgeKey, from: Time, n: nat, forward: bool): nat
    decreases n
  {
    if n == 0 then 0
    else Peak(raw, edges, logical, from, 1, forward) + TenPeaks(raw, edges, logical, from + TEN, n - 1, forward)
  }

  /** The sum of minute peaks over `k` minutes. */
  function MinutePeaks(raw: Raw, edges: EdgeMap, logical: EdgeKey, from: Time, k: nat, forward: bool): nat
    decreases k
  {
    if k == 0 then 0
    else Peak(raw, edges, logical, from, 6, forward) + MinutePeaks(raw, edges, logical, from + MINUTE, k - 1, forward)
  }

  lemma {:induction false} AfterIs(from: Time, n: nat)
    ensures After(from, n) == from + n * 10_000_000_000
    decreases n
  {
    if n > 0 {
      AfterIs(from + TEN, n - 1);
    }
  }

  lemma SixTens(from: Time)
    ensures After(from, 6) == from + MINUTE
  {
    AfterIs(from, 6);
  }

  lemma {:induction false} AfterAfter(from: Time, a: nat, b: nat)
    ensures After(from, a + b) == After(After(from, a), b)
    decreases a
  {
    if a > 0 {
      AfterAfter(from + TEN, a - 1, b);
    }
  }

  lemma {:induction false} RawSumSplits(raw: Raw, e: EdgeKey, from: Time, a: nat, b: nat, forward: bool)
    ensures RawSum(raw, e, from, a + b, forward)
      == RawSum(raw, e, from, a, forward) + RawSum(raw, e, After(from, a), b, forward)
    decreases a
  {
    if a > 0 {
      RawSumSplits(raw, e, from + TEN, a - 1, b, forward);
    }
  }

  lemma ShareSplits(raw: Raw, edges: EdgeMap, p: EdgeKey, from: Time, a: nat, b: nat, forward: bool)
    requires p in edges
    ensures Share(raw, edges, p, from, a + b, forward)
      == Share(raw, edges, p, from, a, forward) + Share(raw, edges, p, After(from, a), b, forward)
  {
    RawSumSplits(raw, p, from, a, b, forward != edges[p].reversed);
  }

  /** Every share stays within the peak. */
  lemma WithinPeak(raw: Raw, edges: EdgeMap, p: EdgeKey, from: Time, n: nat, forward: bool)
    requires p in edges
    ensures Share(raw, edges, p, from, n, forward) <= Peak(raw, edges, edges[p].logical, from, n, forward)
  {
    assert p in PhysicalOf(edges, edges[p].logical);
    assert Share(raw, edges, p, from, n, forward) in Shares(raw, edges, edges[p].logical, from, n, forward);
  }

  /** A bound on every share bounds the peak. */
  lemma PeakWithin(raw: Raw, edges: EdgeMap, logical: EdgeKey, from: Time, n: nat, bound: nat, forward: bool)
    requires forall p | p in PhysicalOf(edges, logical) :: Share(raw, edges, p, from, n, forward) <= bound
    ensures Peak(raw, edges, logical, from, n, forward) <= bound
  {
  }

  lemma {:induction false} ShareWithinTens(raw: Raw, edges: EdgeMap, p: EdgeKey, from: Time, n: nat, forward: bool)
    requires p in edges
    ensures Share(raw, edges, p, from, n, forward) <= TenPeaks(raw, edges, edges[p].logical, from, n, forward)
    decreases n
  {
    if n > 0 {
      WithinPeak(raw, edges, p, from, 1, forward);
      assert After(from, 1) == from + TEN;
      ShareSplits(raw, edges, p, from, 1, n - 1, forward);
      ShareWithinTens(raw, edges, p, from + TEN, n - 1, forward);
    }
  }

  lemma {:induction false} ShareWithinMinutes(raw: Raw, edges: EdgeMap, p: EdgeKey, from: Time, k: nat, forward: bool)
    requires p in edges
    ensures Share(raw, edges, p, from, 6 * k, forward) <= MinutePeaks(raw, edges, edges[p].logical, from, k, forward)
    decreases k
  {
    if k > 0 {
      WithinPeak(raw, edges, p, from, 6, forward);
      SixTens(from);
      ShareSplits(raw, edges, p, from, 6, 6 * (k - 1), forward);
      ShareWithinMinutes(raw, edges, p, from + MINUTE, k - 1, forward);
    }
  }

  /** The peak of a span is at most the sum of its ten-second peaks. */
  lemma PeakWithinTens(raw: Raw, edges: EdgeMap, logical: EdgeKey, from: Time, n: nat, forward: bool)
    ensures Peak(raw, edges, logical, from, n, forward) <= TenPeaks(raw, edges, logical, from, n, forward)
  {
    forall p | p in PhysicalOf(edges, logical)
      ensures Share(raw, edges, p, from, n, forward) <= TenPeaks(raw, edges, logical, from, n, forward)
    {
      ShareWithinTens(raw, edges, p, from, n, forward);
    }
    PeakWithin(raw, edges, logical, from, n, TenPeaks(raw, edges, logical, from, n, forward), forward);
  }

  lemma {:induction false} TenPeaksSplit(raw: Raw, edges: EdgeMap, logical: EdgeKey, from: Time, a: nat, b: nat,
      forward: bool)
    ensures TenPeaks(raw, edges, logical, from, a + b, forward) ==
      TenPeaks(raw, edges, logical, from, a, forward) + TenPeaks(raw, edges, logical, After(from, a), b, forward)
    decreases a
  {
    if a > 0 {
      TenPeaksSplit(raw, edges, logical, from + TEN, a - 1, b, forward);
    }
  }

  lemma {:induction false} MinutePeaksSplit(raw: Raw, edges: EdgeMap, logical: EdgeKey, from: Time, a: nat, b: nat,
      forward: bool)
    ensures MinutePeaks(raw, edges, logical, from, a + b, forward) ==
      MinutePeaks(raw, edges, logical, from, a, forward)
        + MinutePeaks(raw, edges, logical, After(from, 6 * a), b, forward)
    decreases a
  {
    if a > 0 {
      SixTens(from);
      AfterAfter(from, 6, 6 * (a - 1));
      MinutePeaksSplit(raw, edges, logical, from + MINUTE, a - 1, b, forward);
    }
  }

  /** Minute peaks never add up to more than ten-second peaks. */
  lemma {:induction false} MinutesWithinTens(raw: Raw, edges: EdgeMap, logical: EdgeKey, from: Time, k: nat,
      forward: bool)
    ensures MinutePeaks(raw, edges, logical, from, k, forward) <= TenPeaks(raw, edges, logical, from, 6 * k, forward)
    decreases k
  {
    if k > 0 {
      SixTens(from);
      PeakWithinTens(raw, edges, logical, from, 6, forward);
      TenPeaksSplit(raw, edges, logical, from, 6, 6 * (k - 1), forward);
      MinutesWithinTens(raw, edges, logical, from + MINUTE, k - 1, forward);
    }
  }

  /** No other physical edge of the same logical edge ever carried anything. */
  ghost predicate Alone(raw: Raw, edges: EdgeMap, p: EdgeKey) {
    p in edges && forall q, t | (q, t) in raw && q in edges && edges[q].logical == edges[p].logical :: q == p
  }

  lemma {:induction false} SilentSum(raw: Raw, e: EdgeKey, from: Time, n: nat, forward: bool)
    requires forall t :: (e, t) !in raw
    ensures RawSum(raw, e, from, n, forward) == 0
    decreases n
  {
    if n > 0 {
      SilentSum(raw, e, from + TEN, n - 1, forward);
    }
  }

  /** Where one physical edge is all there is to a logical edge, its share is the peak. */
  lemma OnlyShareIsPeak(raw: Raw, edges: EdgeMap, p: EdgeKey, from: Time, n: nat, forward: bool)
    requires Alone(raw, edges, p)
    ensures Peak(raw, edges, edges[p].logical, from, n, forward) == Share(raw, edges, p, from, n, forward)
  {
    WithinPeak(raw, edges, p, from, n, forward);
    forall q | q in PhysicalOf(edges, edges[p].logical)
      ensures Share(raw, edges, q, from, n, forward) <= Share(raw, edges, p, from, n, forward)
    {
      if q != p {
        SilentSum(raw, q, from, n, forward != edges[q].reversed);
      }
    }
    PeakWithin(raw, edges, edges[p].logical, from, n, Share(raw, edges, p, from, n, forward), forward);
  }

  lemma {:induction false} OnlyShareOfTens(raw: Raw, edges: EdgeMap, p: EdgeKey, from: Time, n: nat, forward: bool)
    requires Alone(raw, edges, p)
    ensures TenPeaks(raw, edges, edges[p].logical, from, n, forward) == Share(raw, edges, p, from, n, forward)
    decreases n
  {
    if n > 0 {
      OnlyShareIsPeak(raw, edges, p, from, 1, forward);
      assert After(from, 1) == from + TEN;
      ShareSplits(raw, edges, p, from, 1, n - 1, forward);
      OnlyShareOfTens(raw, edges, p, from + TEN, n - 1, forward);
    }
  }

  lemma {:induction false} OnlyShareOfMinutes(raw: Raw, edges: EdgeMap, p: EdgeKey, from: Time, k: nat, forward: bool)
    requires Alone(raw, edges, p)
    ensures MinutePeaks(raw, edges, edges[p].logical, from, k, forward) == Share(raw, edges, p, from, 6 * k, forward)
    decreases k
  {
    if k > 0 {
      OnlyShareIsPeak(raw, edges, p, from, 6, forward);
      SixTens(from);
      ShareSplits(raw, edges, p, from, 6, 6 * (k - 1), forward);
      OnlyShareOfMinutes(raw, edges, p, from + MINUTE, k - 1, forward);
    }
  }

  /** What a summary adds up to: `k` minute peaks where minutes are rolled up, `n` ten-second peaks after. */
  function Layered(raw: Raw, edges: EdgeMap, logical: EdgeKey, from: Time, k: nat, n: nat, forward: bool): nat {
    MinutePeaks(raw, edges, logical, from, k, forward) + TenPeaks(raw, edges, logical, After(from, 6 * k), n, forward)
  }

  /** Layered totals are sandwiched: at least any single physical edge's deduplicated total, at most the sum of
      the ten-second maxima, and exactly the total where one physical edge is all there is. */
  lemma LayeredIsSandwiched(raw: Raw, edges: EdgeMap, logical: EdgeKey, from: Time, k: nat, n: nat, forward: bool)
    ensures forall p | p in edges && edges[p].logical == logical ::
      Share(raw, edges, p, from, 6 * k + n, forward) <= Layered(raw, edges, logical, from, k, n, forward)
    ensures Layered(raw, edges, logical, from, k, n, forward) <= TenPeaks(raw, edges, logical, from, 6 * k + n, forward)
    ensures forall p | p in edges && edges[p].logical == logical && Alone(raw, edges, p) ::
      Layered(raw, edges, logical, from, k, n, forward) == Share(raw, edges, p, from, 6 * k + n, forward)
  {
    forall p | p in edges && edges[p].logical == logical
      ensures Share(raw, edges, p, from, 6 * k + n, forward) <= Layered(raw, edges, logical, from, k, n, forward)
      ensures Alone(raw, edges, p) ==>
        Layered(raw, edges, logical, from, k, n, forward) == Share(raw, edges, p, from, 6 * k + n, forward)
    {
      ShareWithinMinutes(raw, edges, p, from, k, forward);
      ShareWithinTens(raw, edges, p, After(from, 6 * k), n, forward);
      ShareSplits(raw, edges, p, from, 6 * k, n, forward);
      if Alone(raw, edges, p) {
        OnlyShareOfMinutes(raw, edges, p, from, k, forward);
        OnlyShareOfTens(raw, edges, p, After(from, 6 * k), n, forward);
      }
    }
    MinutesWithinTens(raw, edges, logical, from, k, forward);
    TenPeaksSplit(raw, edges, logical, from, 6 * k, n, forward);
  }
}
