/** The log of path events (internal/store/history_rollup.go, maintainPathAnchors;
    internal/store/history_query.go, EdgePathHistoryWindow): old events are dropped except the one that
    anchors a later window, and a window is read in pages that stay one snapshot while the log grows. */
module PathLog {
  import opened Names
  import opened Canonical
  import opened Traffic

  /** IDs come from an AUTOINCREMENT column: a new event's ID is greater than any before it. */
  datatype Event = Event(id: nat, edge: EdgeKey, at: Time, path: Text)

  type Log = set<Event>

  ghost predicate UniqueIds(log: Log) {
    forall e, f {:trigger e in log, f in log} | e in log && f in log && e.id == f.id :: e == f
  }

  predicate Precedes(e: Event, f: Event) {
    e.at < f.at || (e.at == f.at && e.id < f.id)
  }

  // ---------------------------------------------------------------------------------------------
  // ORDER BY observed_at, id
  // ---------------------------------------------------------------------------------------------

  ghost predicate IsFirst(e: Event, log: Log) {
    e in log && forall f | f in log && f != e :: Precedes(e, f)
  }

  ghost predicate IsLast(e: Event, log: Log) {
    e in log && forall f | f in log && f != e :: Precedes(f, e)
  }

  lemma FirstExists(log: Log)
    requires log != {} && UniqueIds(log)
    ensures exists e :: IsFirst(e, log)
  {
    var some :| some in log;
    var rest := log - {some};
    assert log == rest + {some};
    if rest == {} {
      assert IsFirst(some, log);
    } else {
      FirstExists(rest);
      var e :| IsFirst(e, rest);
      assert IsFirst(if Precedes(some, e) then some else e, log);
    }
  }

  lemma LastExists(log: Log)
    requires log != {} && UniqueIds(log)
    ensures exists e :: IsLast(e, log)
  {
    var some :| some in log;
    var rest := log - {some};
    assert log == rest + {some};
    if rest == {} {
      assert IsLast(some, log);
    } else {
      LastExists(rest);
      var e :| IsLast(e, rest);
      assert IsLast(if Precedes(e, some) then some else e, log);
    }
  }

  ghost function InOrder(log: Log): (events: seq<Event>)
    requires UniqueIds(log)
    ensures Ordered(events)
    ensures forall e :: e in events <==> e in log
  {
    if log == {} then []
    else
      FirstExists(log);
      var first :| IsFirst(first, log);
      [first] + InOrder(log - {first})
  }

  ghost predicate Ordered(events: seq<Event>) {
    forall i, j | 0 <= i < j < |events| :: Precedes(events[i], events[j])
  }

  /** One order for each set. */
  lemma {:induction false} OrderIsUnique(left: seq<Event>, right: seq<Event>)
    requires Ordered(left) && Ordered(right)
    requires forall e :: e in left <==> e in right
    ensures left == right
    decreases |left|
  {
    assert |left| > 0 ==> left[0] in right;
    assert |right| > 0 ==> right[0] in left;
    if |left| > 0 {
      assert left[0] in left && left[0] in right;
      assert right[0] in right && right[0] in left;
      assert left[0] == right[0];
      forall e ensures e in left[1..] <==> e in right[1..] {
        if e in left[1..] { assert e in right && e != right[0]; }
        if e in right[1..] { assert e in left && e != left[0]; }
      }
      OrderIsUnique(left[1..], right[1..]);
    }
  }

  // ---------------------------------------------------------------------------------------------
  // Queries
  // ---------------------------------------------------------------------------------------------

  /** The events of one logical edge, under any of its physical edges. */
  ghost function EventsOf(log: Log, edges: EdgeMap, logical: EdgeKey): Log {
    set e | e in log && e.edge in edges && edges[e.edge].logical == logical
  }

  ghost function Before(log: Log, t: Time): Log {
    set e | e in log && e.at < t
  }

  /** The latest event before an instant. */
  ghost predicate AnchorIs(log: Log, edges: EdgeMap, logical: EdgeKey, t: Time, anchor: Option<Event>) {
    var earlier := Before(EventsOf(log, edges, logical), t);
    if anchor.None? then earlier == {} else IsLast(anchor.value, earlier)
  }

  ghost function Within(log: Log, edges: EdgeMap, logical: EdgeKey, from: Time, to: Time): Log {
    set e | e in EventsOf(log, edges, logical) && from <= e.at < to
  }

  lemma AnchorIsUnique(log: Log, edges: EdgeMap, logical: EdgeKey, t: Time, left: Option<Event>, right: Option<Event>)
    requires AnchorIs(log, edges, logical, t, left) && AnchorIs(log, edges, logical, t, right)
    ensures left == right
  {
  }

  // ---------------------------------------------------------------------------------------------
  // Compaction
  // ---------------------------------------------------------------------------------------------

  /** Some physical edge of the logical edge carried traffic at or after the cutoff. */
  ghost predicate Retained(edges: EdgeMap, lastTraffic: map<EdgeKey, Time>, logical: EdgeKey, cutoff: Time) {
    exists p :: p in edges && p in lastTraffic && edges[p].logical == logical && lastTraffic[p] >= cutoff
  }

  /** maintainPathAnchors: of the events before the cutoff, only a retained edge's latest stays. */
  ghost predicate Kept(log: Log, edges: EdgeMap, lastTraffic: map<EdgeKey, Time>, cutoff: Time, e: Event) {
    || e.at >= cutoff
    || (&& e.edge in edges
        && Retained(edges, lastTraffic, edges[e.edge].logical, cutoff)
        && IsLast(e, Before(EventsOf(log, edges, edges[e.edge].logical), cutoff)))
  }

  ghost function Compacted(log: Log, edges: EdgeMap, lastTraffic: map<EdgeKey, Time>, cutoff: Time): Log {
    set e | e in log && Kept(log, edges, lastTraffic, cutoff, e)
  }

  lemma UniqueSubset(some: Log, all: Log)
    requires some <= all && UniqueIds(all)
    ensures UniqueIds(some)
  {
  }

  /** Compaction preserves answers: for an edge with traffic at or after the cutoff, every window that starts
      there or later has the same anchor and the same events before and after. */
  lemma CompactionPreserves(
    log: Log, edges: EdgeMap, lastTraffic: map<EdgeKey, Time>, cutoff: Time, logical: EdgeKey, from: Time, to: Time,
    anchor: Option<Event>)
    requires UniqueIds(log) && Retained(edges, lastTraffic, logical, cutoff) && cutoff <= from
    ensures var after := Compacted(log, edges, lastTraffic, cutoff);
      && Within(after, edges, logical, from, to) == Within(log, edges, logical, from, to)
      && (AnchorIs(log, edges, logical, from, anchor) <==> AnchorIs(after, edges, logical, from, anchor))
  {
    var after := Compacted(log, edges, lastTraffic, cutoff);
    AnchorSurvives(log, edges, lastTraffic, cutoff, logical, from);
    UniqueSubset(EventsOf(log, edges, logical), log);
    UniqueSubset(Before(EventsOf(log, edges, logical), from), log);
    UniqueSubset(Before(EventsOf(after, edges, logical), from), log);
    if Before(EventsOf(log, edges, logical), from) != {} {
      LastExists(Before(EventsOf(log, edges, logical), from));
      var last :| IsLast(last, Before(EventsOf(log, edges, logical), from));
      assert IsLast(last, Before(EventsOf(after, edges, logical), from));
      if AnchorIs(log, edges, logical, from, anchor) {
        AnchorIsUnique(log, edges, logical, from, anchor, Some(last));
      }
      if AnchorIs(after, edges, logical, from, anchor) {
        AnchorIsUnique(after, edges, logical, from, anchor, Some(last));
      }
    } else {
      assert Before(EventsOf(after, edges, logical), from) == {};
    }
  }

  lemma AnchorSurvives(
    log: Log, edges: EdgeMap, lastTraffic: map<EdgeKey, Time>, cutoff: Time, logical: EdgeKey, from: Time)
    requires UniqueIds(log) && Retained(edges, lastTraffic, logical, cutoff) && cutoff <= from
    ensures var after := Compacted(log, edges, lastTraffic, cutoff);
      forall e | IsLast(e, Before(EventsOf(log, edges, logical), from)) ::
        e in Before(EventsOf(after, edges, logical), from)
  {
    forall e | IsLast(e, Before(EventsOf(log, edges, logical), from))
      ensures Kept(log, edges, lastTraffic, cutoff, e)
    {
      if e.at < cutoff {
        forall f | f in Before(EventsOf(log, edges, logical), cutoff) && f != e ensures Precedes(f, e) {
          assert f in Before(EventsOf(log, edges, logical), from);
        }
        assert IsLast(e, Before(EventsOf(log, edges, logical), cutoff));
      }
    }
  }

  /** The anchor of a window from the cutoff is lost exactly for the edges without traffic since. */
  lemma AnchorKeptIff(
    log: Log, edges: EdgeMap, lastTraffic: map<EdgeKey, Time>, cutoff: Time, logical: EdgeKey, anchor: Event)
    requires UniqueIds(log) && AnchorIs(log, edges, logical, cutoff, Some(anchor))
    ensures AnchorIs(Compacted(log, edges, lastTraffic, cutoff), edges, logical, cutoff, Some(anchor))
        <==> Retained(edges, lastTraffic, logical, cutoff)
  {
    if Retained(edges, lastTraffic, logical, cutoff) {
      CompactionPreserves(log, edges, lastTraffic, cutoff, logical, cutoff, cutoff, Some(anchor));
    }
  }

  /** Compacting twice is compacting once. */
  lemma CompactionIsIdempotent(log: Log, edges: EdgeMap, lastTraffic: map<EdgeKey, Time>, cutoff: Time)
    requires UniqueIds(log)
    ensures var after := Compacted(log, edges, lastTraffic, cutoff);
      Compacted(after, edges, lastTraffic, cutoff) == after
  {
    var after := Compacted(log, edges, lastTraffic, cutoff);
    forall e | e in after ensures Kept(after, edges, lastTraffic, cutoff, e) {
      if e.at < cutoff {
        var logical := edges[e.edge].logical;
        forall f | f in Before(EventsOf(after, edges, logical), cutoff) && f != e ensures Precedes(f, e) {
          assert f in Before(EventsOf(log, edges, logical), cutoff);
        }
      }
    }
  }

  // ---------------------------------------------------------------------------------------------
  // Pages
  // ---------------------------------------------------------------------------------------------

  /** What a page hands to the next: where it stopped, and the newest event the first page could see. */
  datatype PageCursor = PageCursor(at: Time, id: nat, highWater: nat)

  datatype Page = Page(events: seq<Event>, next: Option<PageCursor>)

  ghost predicate AfterCursor(cursor: Option<PageCursor>, e: Event) {
    cursor.Some? ==> e.at > cursor.value.at || (e.at == cursor.value.at && e.id > cursor.value.id)
  }

  /** SELECT COALESCE(MAX(id), 0) over the edge's events before the end of the window. */
  ghost predicate HighWaterIs(log: Log, edges: EdgeMap, logical: EdgeKey, to: Time, highWater: nat) {
    && (forall e | e in Before(EventsOf(log, edges, logical), to) :: e.id <= highWater)
    && (highWater == 0 || exists e :: e in Before(EventsOf(log, edges, logical), to) && e.id == highWater)
  }

  /** The events that one query selects, before its limit. */
  ghost function Selected(
    log: Log, edges: EdgeMap, logical: EdgeKey, from: Time, to: Time, highWater: nat, cursor: Option<PageCursor>): Log
  {
    set e | e in Within(log, edges, logical, from, to) && e.id <= highWater && AfterCursor(cursor, e)
  }

  /** EdgePathHistoryWindow: up to `limit` events, and a cursor if there are more. Without a cursor the newest
      visible event is looked up; with one it is the cursor's. */
  ghost predicate IsPage(
    log: Log, edges: EdgeMap, logical: EdgeKey, from: Time, to: Time, cursor: Option<PageCursor>, limit: nat,
    page: Page)
    requires UniqueIds(log) && limit > 0
  {
    exists highWater: nat :: PageAt(log, edges, logical, from, to, cursor, limit, highWater, page)
  }

  ghost predicate PageAt(
    log: Log, edges: EdgeMap, logical: EdgeKey, from: Time, to: Time, cursor: Option<PageCursor>, limit: nat,
    highWater: nat, page: Page)
    requires UniqueIds(log) && limit > 0
  {
    SelectedIsUnique(log, edges, logical, from, to, highWater, cursor);
    && (if cursor.None? then HighWaterIs(log, edges, logical, to, highWater) else highWater == cursor.value.highWater)
    && page == FirstOf(InOrder(Selected(log, edges, logical, from, to, highWater, cursor)), limit, highWater)
  }

  function FirstOf(all: seq<Event>, limit: nat, highWater: nat): Page
    requires limit > 0
  {
    if |all| > limit then Page(all[..limit], Some(PageCursor(all[limit - 1].at, all[limit - 1].id, highWater)))
    else Page(all, None)
  }

  lemma SelectedIsUnique(
    log: Log, edges: EdgeMap, logical: EdgeKey, from: Time, to: Time, highWater: nat, cursor: Option<PageCursor>)
    requires UniqueIds(log)
    ensures UniqueIds(Selected(log, edges, logical, from, to, highWater, cursor))
    ensures UniqueIds(Within(log, edges, logical, from, to))
  {
    UniqueSubset(Selected(log, edges, logical, from, to, highWater, cursor), log);
    UniqueSubset(Within(log, edges, logical, from, to), log);
  }

  /** A log that has only been appended to, with IDs greater than any before. */
  ghost predicate Appended(first: Log, later: Log) {
    && UniqueIds(later) && first <= later
    && forall e, f {:trigger e in first, f in later} | e in first && f in later && f !in first :: e.id < f.id
  }

  ghost predicate Grows(logs: seq<Log>) {
    forall i | 0 <= i < |logs| :: Appended(logs[0], logs[i])
  }

  /** The cursor that the n-th page is asked for with. */
  function CursorFor(pages: seq<Page>, n: nat): Option<PageCursor>
    requires n <= |pages|
  {
    if n == 0 then None else pages[n - 1].next
  }

  /** Following the cursors for `n` pages, each on the log as it is by then: with the one before's cursor, as
      long as there is one. */
  ghost predicate Follows(
    logs: seq<Log>, edges: EdgeMap, logical: EdgeKey, from: Time, to: Time, limit: nat, pages: seq<Page>, n: nat)
    requires limit > 0 && n <= |pages| == |logs| && Grows(logs)
    decreases n
  {
    n == 0 ||
    (&& Follows(logs, edges, logical, from, to, limit, pages, n - 1)
     && (n == 1 || CursorFor(pages, n - 1).Some?)
     && IsPage(logs[n - 1], edges, logical, from, to, CursorFor(pages, n - 1), limit, pages[n - 1]))
  }

  function Concat(pages: seq<Page>, n: nat): seq<Event>
    requires n <= |pages|
  {
    if n == 0 then [] else Concat(pages, n - 1) + pages[n - 1].events
  }

  /** After `n` pages, their events are the first of the first snapshot, and the cursor stands at the last of
      them. */
  ghost predicate SoFar(all: seq<Event>, pages: seq<Page>, n: nat, highWater: nat, limit: nat)
    requires n <= |pages|
  {
    && n > 0
    && var got := Concat(pages, n);
    && got <= all
    && match pages[n - 1].next
       case None => got == all
       case Some(c) =>
         && |got| == n * limit && 0 < |got| < |all|
         && c == PageCursor(got[|got| - 1].at, got[|got| - 1].id, highWater)
  }

  /** What later pages select is what the first snapshot has left. */
  lemma LaterPagesSeeTheSame(
    first: Log, later: Log, edges: EdgeMap, logical: EdgeKey, from: Time, to: Time, highWater: nat,
    cursor: Option<PageCursor>)
    requires UniqueIds(first) && Appended(first, later)
    requires HighWaterIs(first, edges, logical, to, highWater)
    requires highWater > 0
    ensures Selected(later, edges, logical, from, to, highWater, cursor)
      == Selected(first, edges, logical, from, to, highWater, cursor)
  {
    var top :| top in Before(EventsOf(first, edges, logical), to) && top.id == highWater;
    forall e | e in Selected(later, edges, logical, from, to, highWater, cursor) ensures e in first {
      assert e in first || top.id < e.id;
    }
  }

  lemma FirstSelectsAll(log: Log, edges: EdgeMap, logical: EdgeKey, from: Time, to: Time, highWater: nat)
    requires HighWaterIs(log, edges, logical, to, highWater)
    ensures Selected(log, edges, logical, from, to, highWater, None) == Within(log, edges, logical, from, to)
  {
  }

  /** Past the n-th event in order, the rest is what comes after it. */
  lemma RestInOrder(log: Log, edges: EdgeMap, logical: EdgeKey, from: Time, to: Time, highWater: nat, n: nat,
      c: PageCursor)
    requires UniqueIds(log) && HighWaterIs(log, edges, logical, to, highWater)
    requires UniqueIds(Within(log, edges, logical, from, to))
    requires var all := InOrder(Within(log, edges, logical, from, to));
      0 < n < |all| && c.at == all[n - 1].at && c.id == all[n - 1].id
    ensures UniqueIds(Selected(log, edges, logical, from, to, highWater, Some(c)))
    ensures InOrder(Selected(log, edges, logical, from, to, highWater, Some(c)))
         == InOrder(Within(log, edges, logical, from, to))[n..]
  {
    SelectedIsUnique(log, edges, logical, from, to, highWater, Some(c));
    var all := InOrder(Within(log, edges, logical, from, to));
    var rest := InOrder(Selected(log, edges, logical, from, to, highWater, Some(c)));
    CursorCuts(all, n, c);
    forall e ensures e in rest <==> e in all && AfterCursor(Some(c), e) {
      assert e in all ==> e in Before(EventsOf(log, edges, logical), to);
    }
    OrderIsUnique(rest, all[n..]);
  }

  /** In an ordered list, the cursor at the n-th event leaves exactly what follows it. */
  lemma CursorCuts(all: seq<Event>, n: nat, c: PageCursor)
    requires Ordered(all) && 0 < n < |all| && c.at == all[n - 1].at && c.id == all[n - 1].id
    ensures forall e :: e in all[n..] <==> e in all && AfterCursor(Some(c), e)
  {
    forall i | 0 <= i < |all| ensures AfterCursor(Some(c), all[i]) <==> i >= n {
      assert i == n - 1 || (i < n && Precedes(all[i], all[n - 1])) || (i >= n && Precedes(all[n - 1], all[i]));
    }
    forall e | e in all && AfterCursor(Some(c), e) ensures e in all[n..] {
      var i :| 0 <= i < |all| && all[i] == e;
      assert all[n..][i - n] == e;
    }
  }

  lemma SuffixPages(all: seq<Event>, n: nat, limit: nat)
    requires n < |all| && limit > 0
    ensures all[..n] + all[n..] == all
    ensures |all[n..]| > limit ==> all[..n] + all[n..][..limit] == all[..n + limit]
  {
  }

  /** What a later page selects continues where the pages before it stopped. */
  lemma LaterPageContinues(
    first: Log, later: Log, edges: EdgeMap, logical: EdgeKey, from: Time, to: Time, highWater: nat, n: nat,
    c: PageCursor)
    requires UniqueIds(first) && Appended(first, later)
    requires HighWaterIs(first, edges, logical, to, highWater) && UniqueIds(Within(first, edges, logical, from, to))
    requires var all := InOrder(Within(first, edges, logical, from, to));
      0 < n < |all| && c == PageCursor(all[n - 1].at, all[n - 1].id, highWater)
    ensures UniqueIds(Selected(later, edges, logical, from, to, highWater, Some(c)))
    ensures InOrder(Selected(later, edges, logical, from, to, highWater, Some(c)))
         == InOrder(Within(first, edges, logical, from, to))[n..]
  {
    var all := InOrder(Within(first, edges, logical, from, to));
    assert all[n - 1] in all && all[n] in all;
    assert all[n - 1] in Before(EventsOf(first, edges, logical), to);
    assert all[n] in Before(EventsOf(first, edges, logical), to);
    assert Precedes(all[n - 1], all[n]) && all[n - 1] != all[n];
    assert all[n - 1].id != all[n].id;
    RestInOrder(first, edges, logical, from, to, highWater, n, c);
    LaterPagesSeeTheSame(first, later, edges, logical, from, to, highWater, Some(c));
  }

  lemma SoFarOneMore(all: seq<Event>, pages: seq<Page>, n: nat, highWater: nat, limit: nat)
    requires limit > 0 && 0 < n < |pages| && SoFar(all, pages, n, highWater, limit) && pages[n - 1].next.Some?
    requires pages[n] == FirstOf(all[|Concat(pages, n)|..], limit, highWater)
    ensures SoFar(all, pages, n + 1, highWater, limit)
  {
    var got := |Concat(pages, n)|;
    SuffixPages(all, got, limit);
    assert Concat(pages, n) == all[..got];
    assert (n + 1) * limit == n * limit + limit;
  }

  lemma OnePage(all: seq<Event>, pages: seq<Page>, highWater: nat, limit: nat)
    requires limit > 0 && |pages| > 0 && pages[0] == FirstOf(all, limit, highWater)
    ensures SoFar(all, pages, 1, highWater, limit)
  {
    assert Concat(pages, 1) == Concat(pages, 0) + pages[0].events == pages[0].events;
  }

  lemma FirstPage(
    first: Log, edges: EdgeMap, logical: EdgeKey, from: Time, to: Time, limit: nat, pages: seq<Page>)
    returns (highWater: nat)
    requires UniqueIds(first) && limit > 0 && |pages| > 0 && UniqueIds(Within(first, edges, logical, from, to))
    requires IsPage(first, edges, logical, from, to, None, limit, pages[0])
    ensures HighWaterIs(first, edges, logical, to, highWater)
    ensures SoFar(InOrder(Within(first, edges, logical, from, to)), pages, 1, highWater, limit)
  {
    highWater :| PageAt(first, edges, logical, from, to, None, limit, highWater, pages[0]);
    FirstSelectsAll(first, edges, logical, from, to, highWater);
    OnePage(InOrder(Within(first, edges, logical, from, to)), pages, highWater, limit);
  }

  lemma NextPage(
    first: Log, later: Log, edges: EdgeMap, logical: EdgeKey, from: Time, to: Time, highWater: nat, limit: nat,
    pages: seq<Page>, n: nat)
    requires UniqueIds(first) && Appended(first, later) && limit > 0 && 0 < n < |pages|
    requires HighWaterIs(first, edges, logical, to, highWater) && UniqueIds(Within(first, edges, logical, from, to))
    requires SoFar(InOrder(Within(first, edges, logical, from, to)), pages, n, highWater, limit)
    requires pages[n - 1].next.Some?
    requires IsPage(later, edges, logical, from, to, pages[n - 1].next, limit, pages[n])
    ensures SoFar(InOrder(Within(first, edges, logical, from, to)), pages, n + 1, highWater, limit)
  {
    var all := InOrder(Within(first, edges, logical, from, to));
    var got := Concat(pages, n);
    assert got[|got| - 1] == all[|got| - 1];
    LaterPageContinues(first, later, edges, logical, from, to, highWater, |got|, pages[n - 1].next.value);
    SoFarOneMore(all, pages, n, highWater, limit);
  }

  /** Pages form a consistent snapshot. Following the cursors while events are appended gives, page after page,
      the events that were in the window at the first call, each once, in order; and the last page is the one
      at which nothing of them is left. */
  lemma {:induction false} PagesAreASnapshot(
    logs: seq<Log>, edges: EdgeMap, logical: EdgeKey, from: Time, to: Time, limit: nat, pages: seq<Page>, n: nat)
    returns (highWater: nat)
    requires limit > 0 && 0 < n <= |pages| == |logs| && Grows(logs)
    requires Follows(logs, edges, logical, from, to, limit, pages, n)
    requires UniqueIds(Within(logs[0], edges, logical, from, to))
    ensures HighWaterIs(logs[0], edges, logical, to, highWater)
    ensures SoFar(InOrder(Within(logs[0], edges, logical, from, to)), pages, n, highWater, limit)
    decreases n
  {
    if n == 1 {
      highWater := FirstPage(logs[0], edges, logical, from, to, limit, pages);
    } else {
      highWater := PagesAreASnapshot(logs, edges, logical, from, to, limit, pages, n - 1);
      assert Appended(logs[0], logs[n - 1]);
      NextPage(logs[0], logs[n - 1], edges, logical, from, to, highWater, limit, pages, n - 1);
    }
  }

  /** Following them ends: there are at most as many pages as there are events, and one; and when there is no
      cursor left, everything in the window has been given. */
  lemma FollowingEnds(
    logs: seq<Log>, edges: EdgeMap, logical: EdgeKey, from: Time, to: Time, limit: nat, pages: seq<Page>, n: nat)
    requires limit > 0 && 0 < n <= |pages| == |logs| && Grows(logs)
    requires Follows(logs, edges, logical, from, to, limit, pages, n)
    requires UniqueIds(Within(logs[0], edges, logical, from, to))
    ensures var all := InOrder(Within(logs[0], edges, logical, from, to));
      n <= |all| + 1 && (pages[n - 1].next.None? ==> Concat(pages, n) == all)
  {
    var highWater := PagesAreASnapshot(logs, edges, logical, from, to, limit, pages, n);
    if n > 1 {
      var h := PagesAreASnapshot(logs, edges, logical, from, to, limit, pages, n - 1);
      AtLeast(n - 1, limit);
    }
  }

  lemma AtLeast(n: nat, limit: nat)
    requires limit > 0
    ensures n <= n * limit
  {
  }
}
