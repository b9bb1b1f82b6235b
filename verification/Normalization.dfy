/** Reading a checkpoint back (internal/aggregate/aggregator.go, normalizeState and
    normalizeDirectoryState). A decoded state may predate the move of inventories from reporters to
    observers, and may list observers that its observer table does not own. */
module Normalization {
  import opened Names
  import opened Admission
  import opened Canonical
  import opened Invariants

  /** A reporter as decoded, with the inventories that older checkpoints kept on it. */
  datatype Stored = Stored(
    memory: Memory, observers: set<NodeId>, inventories: map<NodeId, Text>, memberships: map<NodeId, set<NodeId>>)

  function Listed(r: Stored): set<NodeId> {
    r.observers + r.inventories.Keys + r.memberships.Keys
  }

  function Current(r: Stored): Reporter {
    Reporter(r.memory, r.observers)
  }

  const UNOWNED := Observer(None, EMPTY, {}, NEVER)

  // ---------------------------------------------------------------------------------------------
  // What normalisation comes to
  // ---------------------------------------------------------------------------------------------

  ghost predicate Lists(stored: map<ReporterId, Stored>, r: ReporterId, n: NodeId) {
    r in stored && n in Listed(stored[r])
  }

  /** The owner on record, failing that the least reporter that lists the observer, failing that nobody. */
  ghost predicate OwnerOf(
    stored: map<ReporterId, Stored>, before: map<NodeId, Observer>, n: NodeId, owner: Option<ReporterId>)
  {
    if n in before && before[n].owner.Some? then owner == before[n].owner
    else if owner.Some? then
      && Lists(stored, owner.value, n)
      && forall r: ReporterId | Lists(stored, r, n) :: owner.value <= r
    else forall r: ReporterId :: !Lists(stored, r, n)
  }

  /** The observer on record, completed by what its owner's old listing says about it. */
  ghost predicate Completed(
    stored: map<ReporterId, Stored>, before: map<NodeId, Observer>, n: NodeId, after: Observer)
  {
    var was := if n in before then before[n] else UNOWNED;
    && OwnerOf(stored, before, n, after.owner)
    && after.withdrawnAt == was.withdrawnAt
    && (if after.owner.Some? && Lists(stored, after.owner.value, n) then
          var r := stored[after.owner.value];
          && after.generation ==
               (if was.generation == EMPTY && n in r.inventories then r.inventories[n] else was.generation)
          && after.membership == was.membership + (if n in r.memberships then r.memberships[n] else {})
        else after.generation == was.generation && after.membership == was.membership)
  }

  ghost predicate Normal(
    stored: map<ReporterId, Stored>, before: map<NodeId, Observer>,
    observers: map<NodeId, Observer>, reporters: map<ReporterId, Reporter>)
  {
    && (forall n: NodeId :: n in observers <==> n in before || exists r: ReporterId :: Lists(stored, r, n))
    && (forall n: NodeId | n in observers :: Completed(stored, before, n, observers[n]))
    && OwnedListings(stored, observers, reporters)
  }

  /** Every stored or owning reporter is there, and lists exactly what it owns. */
  ghost predicate OwnedListings(
    stored: map<ReporterId, Stored>, observers: map<NodeId, Observer>, reporters: map<ReporterId, Reporter>)
  {
    && (forall r: ReporterId :: r in reporters <==> r in stored || exists n: NodeId ::
      n in observers && observers[n].owner == Some(r))
    && (forall r: ReporterId | r in reporters ::
      reporters[r].memory == if r in stored then stored[r].memory else NO_MEMORY)
    && (forall r: ReporterId, n: NodeId | r in reporters ::
      n in reporters[r].observers <==> n in observers && observers[n].owner == Some(r))
  }

  /** From any decoded state whatever, owners and listings index each other. */
  lemma NormalIsCrossIndexed(
    stored: map<ReporterId, Stored>, before: map<NodeId, Observer>,
    observers: map<NodeId, Observer>, reporters: map<ReporterId, Reporter>)
    requires Normal(stored, before, observers, reporters)
    ensures CrossIndexed(observers, reporters)
  {
  }

  /** `Normal` has one answer. */
  lemma NormalIsUnique(
    stored: map<ReporterId, Stored>, before: map<NodeId, Observer>,
    observers: map<NodeId, Observer>, reporters: map<ReporterId, Reporter>,
    observers': map<NodeId, Observer>, reporters': map<ReporterId, Reporter>)
    requires Normal(stored, before, observers, reporters) && Normal(stored, before, observers', reporters')
    ensures observers == observers' && reporters == reporters'
  {
    assert observers.Keys == observers'.Keys;
    forall n: NodeId | n in observers ensures observers[n] == observers'[n] {
      CompletionIsUnique(stored, before, n, observers[n], observers'[n]);
    }
    assert observers == observers';
    ListingsAreUnique(stored, observers, reporters, reporters');
  }

  lemma ListingsAreUnique(
    stored: map<ReporterId, Stored>, observers: map<NodeId, Observer>,
    reporters: map<ReporterId, Reporter>, reporters': map<ReporterId, Reporter>)
    requires OwnedListings(stored, observers, reporters) && OwnedListings(stored, observers, reporters')
    ensures reporters == reporters'
  {
    assert reporters.Keys == reporters'.Keys;
    forall r: ReporterId | r in reporters ensures reporters[r] == reporters'[r] {
      assert forall n: NodeId :: n in reporters[r].observers <==> n in observers && observers[n].owner == Some(r);
      assert forall n: NodeId :: n in reporters'[r].observers <==> n in observers && observers[n].owner == Some(r);
      assert reporters[r].observers == reporters'[r].observers;
      assert reporters[r].memory == reporters'[r].memory;
    }
  }

  lemma CompletionIsUnique(
    stored: map<ReporterId, Stored>, before: map<NodeId, Observer>, n: NodeId, left: Observer, right: Observer)
    requires Completed(stored, before, n, left) && Completed(stored, before, n, right)
    ensures left == right
  {
    OwnerIsUnique(stored, before, n, left.owner, right.owner);
  }

  lemma OwnerIsUnique(
    stored: map<ReporterId, Stored>, before: map<NodeId, Observer>, n: NodeId,
    left: Option<ReporterId>, right: Option<ReporterId>)
    requires OwnerOf(stored, before, n, left) && OwnerOf(stored, before, n, right)
    ensures left == right
  {
  }

  /** A state that this version wrote: nothing legacy is left on its reporters. */
  ghost predicate Migrated(stored: map<ReporterId, Stored>) {
    forall r: ReporterId | r in stored :: stored[r].inventories == map[] && stored[r].memberships == map[]
  }

  /** On a state the current aggregator can have written, normalisation changes nothing. In particular an
      observer whose owner withdrew it is still nobody's after a restart. */
  lemma NormalKeepsIndexed(
    stored: map<ReporterId, Stored>, before: map<NodeId, Observer>,
    observers: map<NodeId, Observer>, reporters: map<ReporterId, Reporter>)
    requires Normal(stored, before, observers, reporters) && Migrated(stored)
    requires CrossIndexed(before, map r | r in stored :: Current(stored[r]))
    ensures observers == before
    ensures reporters == map r | r in stored :: Current(stored[r])
  {
    ListedAreOwned(stored, before);
    assert observers.Keys == before.Keys;
    forall n | n in observers ensures observers[n] == before[n] {
      KeptIndexed(stored, before, n, observers[n]);
    }
    assert observers == before;
    assert OwnedListings(stored, before, reporters);
    OwnedAlready(stored, before);
    ListingsAreUnique(stored, before, reporters, map r | r in stored :: Current(stored[r]));
  }

  lemma ListedAreOwned(stored: map<ReporterId, Stored>, before: map<NodeId, Observer>)
    requires Migrated(stored) && CrossIndexed(before, map r | r in stored :: Current(stored[r]))
    ensures forall r: ReporterId, n: NodeId | Lists(stored, r, n) :: n in before && before[n].owner == Some(r)
  {
    var current := map r | r in stored :: Current(stored[r]);
    forall r: ReporterId, n: NodeId | Lists(stored, r, n) ensures n in before && before[n].owner == Some(r) {
      assert n in current[r].observers;
    }
  }

  lemma KeptIndexed(stored: map<ReporterId, Stored>, before: map<NodeId, Observer>, n: NodeId, after: Observer)
    requires Completed(stored, before, n, after) && Migrated(stored) && n in before
    requires forall r: ReporterId | Lists(stored, r, n) :: before[n].owner == Some(r)
    ensures after == before[n]
  {
  }

  lemma OwnedAlready(stored: map<ReporterId, Stored>, before: map<NodeId, Observer>)
    requires CrossIndexed(before, map r | r in stored :: Current(stored[r]))
    ensures OwnedListings(stored, before, map r | r in stored :: Current(stored[r]))
  {
  }

  /** A withdrawn observer comes back to life only if some reporter still lists it. */
  lemma RevivedIffListed(
    stored: map<ReporterId, Stored>, before: map<NodeId, Observer>,
    observers: map<NodeId, Observer>, reporters: map<ReporterId, Reporter>, n: NodeId)
    requires Normal(stored, before, observers, reporters) && n in before && before[n].owner.None?
    ensures n in observers
    ensures observers[n].owner.Some? <==> exists r: ReporterId :: Lists(stored, r, n)
  {
  }

  // ---------------------------------------------------------------------------------------------
  // The loops
  // ---------------------------------------------------------------------------------------------

  /** Restricting the decoded reporters to those already walked. */
  ghost function Walked(stored: map<ReporterId, Stored>, done: set<ReporterId>): map<ReporterId, Stored> {
    map r | r in stored && r in done :: stored[r]
  }

  /** The observers after the reporters in `done` have been walked. */
  ghost predicate Upto(
    stored: map<ReporterId, Stored>, before: map<NodeId, Observer>, done: set<ReporterId>,
    observers: map<NodeId, Observer>)
  {
    var walked := Walked(stored, done);
    && (forall n: NodeId :: n in observers <==> n in before || exists r: ReporterId :: Lists(walked, r, n))
    && (forall n: NodeId | n in observers :: Completed(walked, before, n, observers[n]))
  }

  lemma UptoAll(
    stored: map<ReporterId, Stored>, before: map<NodeId, Observer>,
    observers: map<NodeId, Observer>, reporters: map<ReporterId, Reporter>)
    requires Upto(stored, before, stored.Keys, observers) && OwnedListings(stored, observers, reporters)
    ensures Normal(stored, before, observers, reporters)
  {
    assert Walked(stored, stored.Keys) == stored;
  }

  /** One observer listed by one reporter. */
  function Migrate(reporter: ReporterId, r: Stored, observers: map<NodeId, Observer>, n: NodeId): Observer {
    var found := if n in observers then observers[n] else UNOWNED;
    var owned := if found.owner.None? then found.(owner := Some(reporter)) else found;
    if owned.owner != Some(reporter) then owned
    else owned.(
      generation := if owned.generation == EMPTY && n in r.inventories then r.inventories[n] else owned.generation,
      membership := owned.membership + if n in r.memberships then r.memberships[n] else {})
  }

  /** All of one reporter's listed observers, walked in any order. */
  method MigrateReporter(reporter: ReporterId, r: Stored, before: map<NodeId, Observer>)
    returns (observers: map<NodeId, Observer>)
    ensures observers.Keys == before.Keys + Listed(r)
    ensures forall n: NodeId | n in observers ::
      observers[n] == if n in Listed(r) then Migrate(reporter, r, before, n) else before[n]
  {
    observers := before;
    var todo := Listed(r);
    while todo != {}
      invariant todo <= Listed(r)
      invariant observers.Keys == before.Keys + (Listed(r) - todo)
      invariant forall n: NodeId | n in observers ::
        observers[n] == if n in Listed(r) && n !in todo then Migrate(reporter, r, before, n) else before[n]
    {
      var n :| n in todo;
      todo := todo - {n};
      observers := observers[n := Migrate(reporter, r, observers, n)];
    }
  }

  /** Walking one more reporter, greater than all those before it. */
  lemma ListsOneMore(stored: map<ReporterId, Stored>, done: set<ReporterId>, reporter: ReporterId)
    requires reporter in stored
    ensures forall r, n :: Lists(Walked(stored, done + {reporter}), r, n) <==>
      Lists(Walked(stored, done), r, n) || (r == reporter && n in Listed(stored[reporter]))
  {
  }

  lemma ListedOneMore(stored: map<ReporterId, Stored>, done: set<ReporterId>, reporter: ReporterId, n: NodeId)
    requires reporter in stored
    ensures (exists r: ReporterId :: Lists(Walked(stored, done + {reporter}), r, n))
       <==> n in Listed(stored[reporter]) || exists r: ReporterId :: Lists(Walked(stored, done), r, n)
  {
    ListsOneMore(stored, done, reporter);
    if n in Listed(stored[reporter]) {
      assert Lists(Walked(stored, done + {reporter}), reporter, n);
    } else if r :| Lists(Walked(stored, done), r, n) {
      assert Lists(Walked(stored, done + {reporter}), r, n);
    }
  }

  lemma WalkOneMore(
    stored: map<ReporterId, Stored>, before: map<NodeId, Observer>, done: set<ReporterId>, reporter: ReporterId,
    observers: map<NodeId, Observer>, after: map<NodeId, Observer>)
    requires Upto(stored, before, done, observers)
    requires reporter in stored && forall r: ReporterId | r in done :: r < reporter
    requires after.Keys == observers.Keys + Listed(stored[reporter])
    requires forall n: NodeId | n in after ::
      after[n] == if n in Listed(stored[reporter]) then Migrate(reporter, stored[reporter], observers, n)
        else observers[n]
    ensures Upto(stored, before, done + {reporter}, after)
  {
    var walked, more := Walked(stored, done), Walked(stored, done + {reporter});
    ListsOneMore(stored, done, reporter);
    forall n ensures n in after <==> n in before || exists r: ReporterId :: Lists(more, r, n) {
      ListedOneMore(stored, done, reporter, n);
    }
    forall n: NodeId | n in after ensures Completed(more, before, n, after[n]) {
      if n in observers {
        assert Completed(walked, before, n, observers[n]);
        CompleteOneMore(stored, before, done, reporter, n, observers, after[n]);
      } else {
        assert forall r: ReporterId :: !Lists(walked, r, n);
        assert Lists(more, reporter, n);
      }
    }
  }

  lemma CompleteOneMore(
    stored: map<ReporterId, Stored>, before: map<NodeId, Observer>, done: set<ReporterId>, reporter: ReporterId,
    n: NodeId, observers: map<NodeId, Observer>, next: Observer)
    requires n in observers && Completed(Walked(stored, done), before, n, observers[n])
    requires reporter in stored && forall r: ReporterId | r in done :: r < reporter
    requires next ==
      if n in Listed(stored[reporter]) then Migrate(reporter, stored[reporter], observers, n) else observers[n]
    ensures Completed(Walked(stored, done + {reporter}), before, n, next)
  {
    var walked, more := Walked(stored, done), Walked(stored, done + {reporter});
    forall r ensures Lists(more, r, n) <==> Lists(walked, r, n) || (r == reporter && n in Listed(stored[reporter])) { }
    assert !Lists(walked, reporter, n);
    assert forall r: ReporterId | Lists(walked, r, n) :: r < reporter;
    if observers[n].owner.None? && n in Listed(stored[reporter]) {
      assert Lists(more, reporter, n);
    }
  }

  /** normalizeState: owners first, in ascending reporter order, then every listing rebuilt from them. */
  method NormalizeState(stored: map<ReporterId, Stored>, before: map<NodeId, Observer>)
    returns (observers: map<NodeId, Observer>, reporters: map<ReporterId, Reporter>)
    ensures Normal(stored, before, observers, reporters)
  {
    observers := AssignOwners(stored, before);
    reporters := ListOwned(stored, observers, map r | r in stored :: Reporter(stored[r].memory, {}));
    UptoAll(stored, before, observers, reporters);
  }

  method AssignOwners(stored: map<ReporterId, Stored>, before: map<NodeId, Observer>)
    returns (observers: map<NodeId, Observer>)
    ensures Upto(stored, before, stored.Keys, observers)
  {
    observers := before;
    var order := Ascending(stored.Keys);
    ghost var done: set<ReporterId> := {};
    for i := 0 to |order|
      invariant forall r: ReporterId :: r in done <==> r in order[..i]
      invariant Upto(stored, before, done, observers)
    {
      var r := order[i];
      assert r in order;
      FollowsInOrder(order, i, done);
      var next := MigrateReporter(r, stored[r], observers);
      WalkOneMore(stored, before, done, r, observers, next);
      observers := next;
      done := done + {r};
    }
    assert order[..|order|] == order;
    assert done == stored.Keys;
  }

  lemma FollowsInOrder(order: seq<ReporterId>, i: nat, done: set<ReporterId>)
    requires i < |order| && forall j, k | 0 <= j < k < |order| :: order[j] < order[k]
    requires forall r: ReporterId :: r in done <==> r in order[..i]
    ensures forall r: ReporterId | r in done :: r < order[i]
    ensures forall r: ReporterId :: r in done + {order[i]} <==> r in order[..i + 1]
  {
    assert order[..i + 1] == order[..i] + [order[i]];
  }

  method ListOwned(
    ghost stored: map<ReporterId, Stored>, observers: map<NodeId, Observer>, empty: map<ReporterId, Reporter>)
    returns (reporters: map<ReporterId, Reporter>)
    requires empty == map r | r in stored :: Reporter(stored[r].memory, {})
    ensures OwnedListings(stored, observers, reporters)
  {
    reporters := empty;
    var todo := observers.Keys;
    ghost var listed: map<NodeId, Observer> := map[];
    assert OwnedListings(stored, listed, reporters);
    while todo != {}
      invariant todo <= observers.Keys && listed == observers - todo
      invariant OwnedListings(stored, listed, reporters)
    {
      var n :| n in todo;
      ListNext(stored, listed, reporters, n, observers[n]);
      if observers[n].owner.Some? {
        var r := observers[n].owner.value;
        var listing := if r in reporters then reporters[r] else Reporter(NO_MEMORY, {});
        reporters := reporters[r := listing.(observers := listing.observers + {n})];
      }
      todo, listed := todo - {n}, listed[n := observers[n]];
    }
    assert listed == observers;
  }

  lemma ListNext(
    stored: map<ReporterId, Stored>, observers: map<NodeId, Observer>, reporters: map<ReporterId, Reporter>,
    n: NodeId, observer: Observer)
    requires OwnedListings(stored, observers, reporters) && n !in observers
    ensures OwnedListings(stored, observers[n := observer],
      if observer.owner.None? then reporters
      else
        var r := observer.owner.value;
        var listing := if r in reporters then reporters[r] else Reporter(NO_MEMORY, {});
        reporters[r := listing.(observers := listing.observers + {n})])
  {
    var after := observers[n := observer];
    assert forall m: NodeId :: m in after <==> m in observers || m == n;
  }

  // ---------------------------------------------------------------------------------------------
  // The directory
  // ---------------------------------------------------------------------------------------------

  ghost predicate KeptEntries(d: Directory, aliases: map<Alias, NodeId>, live: set<NodeId>, e: Directory) {
    && e.devices == d.devices
    && e.conflicts == (map n | n in d.conflicts && n in live :: d.conflicts[n])
    && (forall v | v in d.devices :: v.stable in e.canonical && Some(e.canonical[v.stable]) == EntryOf(d, aliases, v))
    && (forall t: Text | t in d.canonical :: t in e.canonical && e.canonical[t] == d.canonical[t])
    && (forall t: Text | t in e.canonical :: t in d.canonical || exists v | v in d.devices :: v.stable == t)
  }

  /** normalizeDirectoryState: entries that are missing are looked up, entries that name no live node
      refuse the checkpoint, and conflicts of dead nodes are dropped. */
  method NormalizeDirectory(d: Directory, aliases: map<Alias, NodeId>, live: set<NodeId>)
      returns (result: Option<Directory>)
    ensures result.Some? <==> forall v | v in d.devices ::
      EntryOf(d, aliases, v).Some? && EntryOf(d, aliases, v).value in live
    ensures result.Some? ==> KeptEntries(d, aliases, live, result.value)
  {
    var canonical: map<Text, NodeId> := d.canonical;
    for i := 0 to |d.devices|
      invariant forall v | v in d.devices[..i] ::
        && EntryOf(d, aliases, v).Some? && EntryOf(d, aliases, v).value in live
        && v.stable in canonical && canonical[v.stable] == EntryOf(d, aliases, v).value
      invariant forall t: Text | t in d.canonical :: t in canonical && canonical[t] == d.canonical[t]
      invariant forall t: Text | t in canonical && t !in d.canonical ::
        && (exists v | v in d.devices :: v.stable == t)
        && StableAlias(t) in aliases && canonical[t] == aliases[StableAlias(t)]
    {
      var v := d.devices[i];
      assert d.devices[..i + 1] == d.devices[..i] + [v];
      if v.stable !in canonical {
        if StableAlias(v.stable) !in aliases {
          assert EntryOf(d, aliases, v).None?;
          return None;
        }
        canonical := canonical[v.stable := aliases[StableAlias(v.stable)]];
      }
      if canonical[v.stable] !in live {
        assert EntryOf(d, aliases, v).value !in live;
        return None;
      }
    }
    assert d.devices[..|d.devices|] == d.devices;
    result := Some(Directory(d.devices, canonical, map n | n in d.conflicts && n in live :: d.conflicts[n]));
  }

  lemma DirectoryIsKept(g: Graph, directory: Option<Directory>)
    requires Anchored(g) && g.directory.Some? == directory.Some?
    requires directory.Some? ==> KeptEntries(g.directory.value, g.aliases, g.nodes.Keys, directory.value)
    ensures directory == g.directory
  {
    if directory.Some? {
      assert directory.value.canonical == g.directory.value.canonical;
      assert directory.value.conflicts == g.directory.value.conflicts;
    }
  }

  function EntryOf(d: Directory, aliases: map<Alias, NodeId>, v: Device): Option<NodeId> {
    if v.stable in d.canonical then Some(d.canonical[v.stable])
    else if StableAlias(v.stable) in aliases then Some(aliases[StableAlias(v.stable)])
    else None
  }

  /** `g` as this version stores it: nothing legacy is left on its reporters. */
  ghost predicate Encodes(stored: map<ReporterId, Stored>, g: Graph) {
    Migrated(stored) && g.reporters == map r | r in stored :: Current(stored[r])
  }

  /** RestoreState on a decoded checkpoint: `g` without its reporters, and the reporters as stored. From any
      such checkpoint the ownership index comes out right; one that the aggregator wrote is read back
      exactly as it was. */
  method RestoreState(g: Graph, stored: map<ReporterId, Stored>) returns (restored: Option<Graph>)
    ensures restored.Some? ==> Indexed(restored.value)
    ensures Indexed(g) && Anchored(g) && Encodes(stored, g) ==> restored == Some(g)
  {
    var observers, reporters := NormalizeState(stored, g.observers);
    NormalIsCrossIndexed(stored, g.observers, observers, reporters);
    var ok, directory := RestoreDirectory(g);
    if !ok {
      return None;
    }
    restored := Some(g.(observers := observers, reporters := reporters, directory := directory));
    if Indexed(g) && Anchored(g) && Encodes(stored, g) {
      RestoredIsSame(g, stored, observers, reporters, directory);
    }
  }

  method RestoreDirectory(g: Graph) returns (ok: bool, directory: Option<Directory>)
    ensures ok ==> directory.Some? == g.directory.Some?
    ensures ok && directory.Some? ==> KeptEntries(g.directory.value, g.aliases, g.nodes.Keys, directory.value)
    ensures Anchored(g) ==> ok
  {
    ok, directory := true, g.directory;
    if directory.Some? {
      directory := NormalizeDirectory(directory.value, g.aliases, g.nodes.Keys);
      ok := directory.Some?;
    }
  }

  lemma RestoredIsSame(
    g: Graph, stored: map<ReporterId, Stored>, observers: map<NodeId, Observer>, reporters: map<ReporterId, Reporter>,
    directory: Option<Directory>)
    requires Normal(stored, g.observers, observers, reporters)
    requires g.directory.Some? == directory.Some?
    requires directory.Some? ==> KeptEntries(g.directory.value, g.aliases, g.nodes.Keys, directory.value)
    requires Indexed(g) && Anchored(g) && Encodes(stored, g)
    ensures g == g.(observers := observers, reporters := reporters, directory := directory)
  {
    NormalKeepsIndexed(stored, g.observers, observers, reporters);
    DirectoryIsKept(g, directory);
  }
}
