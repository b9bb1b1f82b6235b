/** The label layout's spatial index (web/src/lib/layoutGeometry.ts): rectangles are kept by the cells they
    cover, those that cover too many in a bucket of their own, and a query must find what a scan of all of
    them would. Coordinates are real numbers; rounding is not modelled. */
module SpatialIndexing {
  import opened Names

  datatype Rect = Rect(x1: real, y1: real, x2: real, y2: real)

  predicate WellFormed(r: Rect) {
    r.x1 <= r.x2 && r.y1 <= r.y2
  }

  predicate Intersects(a: Rect, b: Rect) {
    a.x1 < b.x2 && a.x2 > b.x1 && a.y1 < b.y2 && a.y2 > b.y1
  }

  function Expand(r: Rect, amount: real): Rect {
    Rect(r.x1 - amount, r.y1 - amount, r.x2 + amount, r.y2 + amount)
  }

  /** Whether one rectangle is widened or the other makes no difference. */
  lemma WideningIsSymmetric(a: Rect, b: Rect, amount: real)
    ensures Intersects(Expand(a, amount), b) <==> Intersects(Expand(b, amount), a)
    ensures Intersects(a, b) <==> Intersects(b, a)
  {
  }

  // ---------------------------------------------------------------------------------------------
  // Cells
  // ---------------------------------------------------------------------------------------------

  const MAX_SAFE_INTEGER: int := 9_007_199_254_740_991
  const MAX_CELLS: int := 256

  type Cell = (int, int)

  function CellOf(v: real): int {
    (v / 96.0).Floor
  }

  predicate IsSafe(n: int) {
    -MAX_SAFE_INTEGER <= n <= MAX_SAFE_INTEGER
  }

  /** Too many cells, or cells that cannot be numbered. */
  predicate IsBroad(r: Rect) {
    || !(IsSafe(CellOf(r.x1)) && IsSafe(CellOf(r.x2)) && IsSafe(CellOf(r.y1)) && IsSafe(CellOf(r.y2)))
    || (CellOf(r.x2) - CellOf(r.x1) + 1) * (CellOf(r.y2) - CellOf(r.y1) + 1) > MAX_CELLS
  }

  predicate Covers(r: Rect, c: Cell) {
    CellOf(r.x1) <= c.0 <= CellOf(r.x2) && CellOf(r.y1) <= c.1 <= CellOf(r.y2)
  }

  /** Rectangles that meet share a cell, that of the later of their corners. */
  lemma MeetingShareACell(a: Rect, b: Rect)
    requires WellFormed(a) && WellFormed(b) && Intersects(a, b)
    ensures exists c :: Covers(a, c) && Covers(b, c)
  {
    var x := if a.x1 > b.x1 then a.x1 else b.x1;
    var y := if a.y1 > b.y1 then a.y1 else b.y1;
    FloorGrows(a.x1, x);
    FloorGrows(b.x1, x);
    FloorGrows(x, a.x2);
    FloorGrows(x, b.x2);
    FloorGrows(a.y1, y);
    FloorGrows(b.y1, y);
    FloorGrows(y, a.y2);
    FloorGrows(y, b.y2);
    assert Covers(a, (CellOf(x), CellOf(y))) && Covers(b, (CellOf(x), CellOf(y)));
  }

  lemma FloorGrows(v: real, w: real)
    requires v <= w
    ensures CellOf(v) <= CellOf(w)
  {
    assert v / 96.0 <= w / 96.0;
  }

  datatype Item = Item(id: Text, bounds: Rect)

  /** What the cells, the broad bucket and the list of all let a query find. */
  ghost predicate Findable(bounds: Rect, item: Item) {
    && Intersects(bounds, item.bounds)
    && (IsBroad(bounds) || IsBroad(item.bounds) || exists c :: Covers(bounds, c) && Covers(item.bounds, c))
  }

  /** For well-formed rectangles nothing that meets the bounds is missed. */
  lemma FindableIffMeets(bounds: Rect, item: Item)
    requires WellFormed(bounds) && WellFormed(item.bounds)
    ensures Findable(bounds, item) <==> Intersects(bounds, item.bounds)
  {
    if Intersects(bounds, item.bounds) {
      MeetingShareACell(bounds, item.bounds);
    }
  }

  /** A rectangle turned inside out can meet bounds around it and still be in no cell. */
  lemma InsideOutIsMissed()
    ensures var bounds, item := Rect(0.0, 0.0, 900.0, 90.0), Item(EMPTY, Rect(500.0, 10.0, 300.0, 20.0));
      Intersects(bounds, item.bounds) && !Findable(bounds, item)
  {
    var bounds, item := Rect(0.0, 0.0, 900.0, 90.0), Item(EMPTY, Rect(500.0, 10.0, 300.0, 20.0));
    assert CellOf(500.0) == 5 && CellOf(300.0) == 3;
    assert CellOf(0.0) == 0 && CellOf(900.0) == 9 && CellOf(90.0) == 0 && CellOf(10.0) == 0 && CellOf(20.0) == 0;
    forall c ensures !Covers(item.bounds, c) { }
  }

  ghost predicate In(cells: map<Cell, seq<Item>>, c: Cell, i: Item) {
    c in cells && i in cells[c]
  }

  /** The item added to each of its cells. */
  method File(before: map<Cell, seq<Item>>, keys: seq<Cell>, item: Item) returns (cells: map<Cell, seq<Item>>)
    ensures forall c, i :: In(cells, c, i) <==> In(before, c, i) || (i == item && c in keys)
  {
    cells := before;
    for n := 0 to |keys|
      invariant forall c, i :: In(cells, c, i) <==> In(before, c, i) || (i == item && c in keys[..n])
    {
      var key := keys[n];
      assert forall c :: c in keys[..n + 1] <==> c in keys[..n] || c == key by {
        assert keys[..n + 1] == keys[..n] + [key];
      }
      ghost var filed := cells;
      var values := (if key in cells then cells[key] else []) + [item];
      cells := cells[key := values];
      forall c, i ensures In(cells, c, i) <==> In(filed, c, i) || (i == item && c == key) { }
    }
    assert keys[..|keys|] == keys;
  }

  /** The candidates of a query that has cells. */
  method Gather(cells: map<Cell, seq<Item>>, broad: seq<Item>, keys: seq<Cell>) returns (candidates: seq<Item>)
    ensures forall i :: i in candidates <==> i in broad || exists c :: c in keys && In(cells, c, i)
  {
    candidates := broad;
    for n := 0 to |keys|
      invariant forall i :: i in candidates <==> i in broad || exists c :: c in keys[..n] && In(cells, c, i)
    {
      var key := keys[n];
      assert forall c :: c in keys[..n + 1] <==> c in keys[..n] || c == key by {
        assert keys[..n + 1] == keys[..n] + [key];
      }
      ghost var before := candidates;
      candidates := candidates + if key in cells then cells[key] else [];
      forall i ensures i in candidates <==> i in before || In(cells, key, i) { }
    }
    assert keys[..|keys|] == keys;
  }

  /** Duplicates dropped, and what does not meet the bounds. */
  method Meeting(bounds: Rect, candidates: seq<Item>) returns (found: seq<Item>)
    ensures forall i :: i in found <==> i in candidates && Intersects(bounds, i.bounds)
    ensures forall j, k | 0 <= j < k < |found| :: found[j] != found[k]
  {
    found := [];
    for n := 0 to |candidates|
      invariant forall i :: i in found <==> i in candidates[..n] && Intersects(bounds, i.bounds)
      invariant forall j, k | 0 <= j < k < |found| :: found[j] != found[k]
    {
      assert candidates[..n + 1] == candidates[..n] + [candidates[n]];
      if candidates[n] !in found && Intersects(bounds, candidates[n].bounds) {
        found := found + [candidates[n]];
      }
    }
    assert candidates[..|candidates|] == candidates;
  }

  class SpatialIndex {
    var cells: map<Cell, seq<Item>>
    var broad: seq<Item>
    var all: seq<Item>

    /** Every item is in the list, and in the broad bucket or in each cell it covers. */
    ghost predicate Valid()
      reads this
    {
      && (forall i :: i in broad <==> i in all && IsBroad(i.bounds))
      && (forall c, i :: In(cells, c, i) <==> i in all && !IsBroad(i.bounds) && Covers(i.bounds, c))
    }

    constructor ()
      ensures Valid() && all == []
    {
      cells, broad, all := map[], [], [];
    }

    /** keys: the cells of a rectangle, or nothing if it is broad. */
    static method Keys(r: Rect) returns (keys: Option<seq<Cell>>)
      ensures keys.None? <==> IsBroad(r)
      ensures keys.Some? ==> forall c :: c in keys.value <==> Covers(r, c)
    {
      var x1, x2, y1, y2 := CellOf(r.x1), CellOf(r.x2), CellOf(r.y1), CellOf(r.y2);
      if !(IsSafe(x1) && IsSafe(x2) && IsSafe(y1) && IsSafe(y2)) || (x2 - x1 + 1) * (y2 - y1 + 1) > MAX_CELLS {
        return None;
      }
      var cells: seq<Cell> := [];
      var x := x1;
      while x <= x2
        invariant x1 <= x
        invariant forall c :: c in cells <==> x1 <= c.0 < x && c.0 <= x2 && y1 <= c.1 <= y2
        decreases x2 - x
      {
        var y := y1;
        while y <= y2
          invariant y1 <= y
          invariant forall c :: c in cells <==>
            (x1 <= c.0 < x && y1 <= c.1 <= y2) || (c.0 == x && y1 <= c.1 < y && c.1 <= y2)
          decreases y2 - y
        {
          cells := cells + [(x, y)];
          y := y + 1;
        }
        x := x + 1;
      }
      keys := Some(cells);
    }

    method Add(item: Item)
      requires Valid()
      modifies this
      ensures Valid() && all == old(all) + [item]
    {
      all := all + [item];
      var keys := Keys(item.bounds);
      if keys.None? {
        broad := broad + [item];
        return;
      }
      cells := File(cells, keys.value, item);
    }

    /** query: whichever way it takes, it finds the items that a scan would, each once. */
    method Query(bounds: Rect) returns (found: seq<Item>)
      requires Valid()
      ensures forall i :: i in found <==> i in all && Findable(bounds, i)
      ensures forall j, k | 0 <= j < k < |found| :: found[j] != found[k]
    {
      var keys := Keys(bounds);
      var candidates := all;
      if keys.Some? {
        candidates := Gather(cells, broad, keys.value);
      }
      found := Meeting(bounds, candidates);
    }
  }

  // ---------------------------------------------------------------------------------------------
  // Placing labels
  // ---------------------------------------------------------------------------------------------

  const LABEL_GAP: real := 8.0

  datatype Point = Point(x: real, y: real)

  function Centered(p: Point, width: real, height: real): Rect {
    Rect(p.x - width / 2.0, p.y - height / 2.0, p.x + width / 2.0, p.y + height / 2.0)
  }

  /** labelCandidates: below, above, right, left, and the four corners. */
  function Candidates(body: Rect, width: real, height: real): (candidates: seq<Rect>)
    ensures |candidates| == 8
    ensures width >= 0.0 && height >= 0.0 ==> forall i | 0 <= i < 8 :: WellFormed(candidates[i])
  {
    var cx, cy := (body.x1 + body.x2) / 2.0, (body.y1 + body.y2) / 2.0;
    var below, above := body.y2 + LABEL_GAP + height / 2.0, body.y1 - LABEL_GAP - height / 2.0;
    var left, right := body.x1 - LABEL_GAP - width / 2.0, body.x2 + LABEL_GAP + width / 2.0;
    [Centered(Point(cx, below), width, height), Centered(Point(cx, above), width, height),
     Centered(Point(right, cy), width, height), Centered(Point(left, cy), width, height),
     Centered(Point(right, below), width, height), Centered(Point(left, below), width, height),
     Centered(Point(right, above), width, height), Centered(Point(left, above), width, height)]
  }

  /** Every candidate keeps the gap from the body it labels. */
  lemma CandidatesClearBody(body: Rect, width: real, height: real, i: nat)
    requires WellFormed(body) && width >= 0.0 && height >= 0.0 && i < 8
    ensures !Intersects(Expand(body, LABEL_GAP), Candidates(body, width, height)[i])
  {
  }

  datatype Request = Request(id: Text, body: Rect, width: real, height: real, previous: Option<int>)

  datatype Placement = Placement(bounds: Rect, anchor: int)

  /** Clear of every occupant by the gap, and of every exclusion. */
  ghost predicate Clear(bounds: Rect, occupied: seq<Item>, exclusions: seq<Rect>) {
    && (forall i | i in occupied :: !Intersects(Expand(bounds, LABEL_GAP), i.bounds))
    && (forall r | r in exclusions :: !Intersects(r, bounds))
  }

  ghost predicate AllWellFormed(occupied: seq<Item>) {
    forall i | i in occupied :: WellFormed(i.bounds)
  }

  /** The previous anchor first, then all eight in turn. */
  function AnchorOrder(previous: Option<int>): (order: seq<int>)
    ensures |order| == 9 && (previous.Some? ==> order[0] == previous.value)
    ensures forall m | 1 <= m < 9 :: order[m] == m - 1
  {
    [if previous.Some? then previous.value else 0, 0, 1, 2, 3, 4, 5, 6, 7]
  }

  predicate AnyIntersects(exclusions: seq<Rect>, bounds: Rect) {
    exists r | r in exclusions :: Intersects(r, bounds)
  }

  /** placeLabel: the first anchor in order that is clear; none exactly when no candidate is. */
  method PlaceLabel(request: Request, occupied: SpatialIndex, exclusions: seq<Rect>) returns (placed: Option<Placement>)
    requires occupied.Valid() && AllWellFormed(occupied.all) && request.width >= 0.0 && request.height >= 0.0
    ensures var candidates := Candidates(request.body, request.width, request.height);
      match placed
      case Some(p) =>
        && 0 <= p.anchor < 8 && p.bounds == candidates[p.anchor] && Clear(p.bounds, occupied.all, exclusions)
        && (request.previous == Some(p.anchor)
            || ((request.previous.Some? && 0 <= request.previous.value < 8 ==>
                   !Clear(candidates[request.previous.value], occupied.all, exclusions))
                && forall i | 0 <= i < p.anchor :: !Clear(candidates[i], occupied.all, exclusions)))
      case None => forall i | 0 <= i < 8 :: !Clear(candidates[i], occupied.all, exclusions)
  {
    var candidates := Candidates(request.body, request.width, request.height);
    var order := AnchorOrder(request.previous);
    for n := 0 to |order|
      invariant forall m | 0 <= m < n && 0 <= order[m] < 8 :: !Clear(candidates[order[m]], occupied.all, exclusions)
    {
      var anchor := order[n];
      if 0 <= anchor < 8 {
        var bounds := candidates[anchor];
        if !AnyIntersects(exclusions, bounds) {
          var found := occupied.Query(Expand(bounds, LABEL_GAP));
          ClearIffNothingFound(bounds, occupied.all, exclusions, found);
          if |found| == 0 {
            forall i | 0 <= i < anchor && n > 0 ensures !Clear(candidates[i], occupied.all, exclusions) {
              assert order[i + 1] == i;
            }
            return Some(Placement(bounds, anchor));
          }
        }
      }
    }
    forall i | 0 <= i < 8 ensures !Clear(candidates[i], occupied.all, exclusions) {
      assert order[i + 1] == i;
    }
    placed := None;
  }

  lemma ClearIffNothingFound(bounds: Rect, occupied: seq<Item>, exclusions: seq<Rect>, found: seq<Item>)
    requires WellFormed(bounds) && AllWellFormed(occupied) && !AnyIntersects(exclusions, bounds)
    requires forall i :: i in found <==> i in occupied && Findable(Expand(bounds, LABEL_GAP), i)
    ensures Clear(bounds, occupied, exclusions) <==> |found| == 0
  {
    forall i | i in occupied ensures i in found <==> Intersects(Expand(bounds, LABEL_GAP), i.bounds) {
      FindableIffMeets(Expand(bounds, LABEL_GAP), i);
    }
    if |found| > 0 { assert found[0] in found; }
  }

  /** Each name of a list, from the n-th on, keeps the gap from all occupants before it and is outside every
      exclusion. */
  ghost predicate KeptApart(all: seq<Item>, n: nat, exclusions: seq<Rect>) {
    forall j | n <= j < |all| :: Clear(all[j].bounds, all[..j], exclusions)
  }

  /** Names placed one after another, each added once it is placed. */
  method PlaceLabels(requests: seq<Request>, occupied: SpatialIndex, exclusions: seq<Rect>)
    requires occupied.Valid() && AllWellFormed(occupied.all)
    requires forall r | r in requests :: r.width >= 0.0 && r.height >= 0.0
    modifies occupied
    ensures occupied.Valid() && old(occupied.all) <= occupied.all && AllWellFormed(occupied.all)
    ensures KeptApart(occupied.all, |old(occupied.all)|, exclusions)
  {
    for n := 0 to |requests|
      invariant occupied.Valid() && old(occupied.all) <= occupied.all && AllWellFormed(occupied.all)
      invariant KeptApart(occupied.all, |old(occupied.all)|, exclusions)
    {
      assert requests[n] in requests;
      var placed := PlaceLabel(requests[n], occupied, exclusions);
      if placed.Some? {
        ghost var before := occupied.all;
        occupied.Add(Item(requests[n].id, placed.value.bounds));
        OneMoreApart(before, occupied.all, |old(occupied.all)|, exclusions);
      }
    }
  }

  lemma OneMoreApart(before: seq<Item>, after: seq<Item>, n: nat, exclusions: seq<Rect>)
    requires |after| == |before| + 1 && before <= after && n <= |before| && KeptApart(before, n, exclusions)
    requires Clear(after[|before|].bounds, before, exclusions)
    ensures KeptApart(after, n, exclusions)
  {
    forall j | n <= j < |after| ensures Clear(after[j].bounds, after[..j], exclusions) {
      if j < |before| {
        assert after[..j] == before[..j] && after[j] == before[j];
      } else {
        assert after[..j] == before;
      }
    }
  }

  /** Keeping apart is mutual: of two placed names, neither comes within the gap of the other. */
  lemma ApartIsMutual(all: seq<Item>, n: nat, exclusions: seq<Rect>, i: nat, j: nat)
    requires KeptApart(all, n, exclusions) && i < j < |all| && n <= j
    ensures !Intersects(Expand(all[i].bounds, LABEL_GAP), all[j].bounds)
    ensures !Intersects(Expand(all[j].bounds, LABEL_GAP), all[i].bounds)
  {
    assert all[i] in all[..j];
    WideningIsSymmetric(all[i].bounds, all[j].bounds, LABEL_GAP);
  }
}
