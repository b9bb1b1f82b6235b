/** Path evidence reconciliation (internal/domain/path_evidence.go) and the endpoint-owned directional
    paths (internal/domain/directional_paths.go).

    Observations reach the reconciler in Go map order. The results below are stated on the set of
    (observer, path) sightings, so they cannot depend on that order nor on any receipt time. */
module Evidence {
  import opened Names

  datatype PathKind = NoKind | Direct | Derp | PeerRelay | UnknownPath

  /** A direct endpoint as the comparison sees it: the address, with or without a port. */
  datatype Endpoint = NoEndpoint | Address(address: Text) | AddressPort(address: Text, port: nat)

  datatype Path = Path(
    kind: PathKind,
    direct: Endpoint,
    region: Text,
    stable: Text,
    endpoint: Text,
    resolution: Text,
    vni: Option<int>)

  const ENDPOINT_MATCH: Text := 3
  const NO_PATH := Path(NoKind, NoEndpoint, EMPTY, EMPTY, EMPTY, EMPTY, None)

  datatype EvidenceKind = Observed | Inferred | Legacy

  datatype Provenance = Provenance(
    observer: NodeId,
    path: Path,
    fallback: Option<Path>,
    evidence: EvidenceKind,
    rule: Text,
    collectedAt: Time,
    receivedAt: Time)

  // ---------------------------------------------------------------------------------------------
  // Evidence keys
  // ---------------------------------------------------------------------------------------------

  datatype Key =
    | DerpKey(region: Text)
    | DirectKey
    | RelayStable(stable: Text)
    | RelayEndpoint(endpoint: Text)
    | RelayVni(vni: int)
    | RelayUnknown
    | UnknownKey

  function KeyOf(path: Path): Key {
    match path.kind
    case Direct => DirectKey
    case Derp => DerpKey(if path.region == EMPTY then UNKNOWN else path.region)
    case PeerRelay =>
      if path.stable != EMPTY then RelayStable(path.stable)
      else if path.endpoint != EMPTY then RelayEndpoint(path.endpoint)
      else if path.vni.Some? then RelayVni(path.vni.value)
      else RelayUnknown
    case NoKind => UnknownKey
    case UnknownPath => UnknownKey
  }

  function KeyClass(key: Key): int {
    match key
    case DerpKey(_) => 0
    case DirectKey => 1
    case RelayStable(_) => 2
    case RelayEndpoint(_) => 3
    case RelayVni(_) => 4
    case RelayUnknown => 5
    case UnknownKey => 6
  }

  function KeyText(key: Key): int {
    match key
    case DerpKey(t) => t
    case RelayStable(t) => t
    case RelayEndpoint(t) => t
    case RelayVni(n) => n
    case _ => 0
  }

  predicate KeyBefore(left: Key, right: Key) {
    || KeyClass(left) < KeyClass(right)
    || (KeyClass(left) == KeyClass(right) && KeyText(left) < KeyText(right))
  }

  predicate Sorted(keys: seq<Key>) {
    forall i, j | 0 <= i < j < |keys| :: KeyBefore(keys[i], keys[j])
  }

  predicate IsLeast(least: Key, keys: set<Key>) {
    least in keys && forall k | k in keys :: k == least || KeyBefore(least, k)
  }

  function LeastKey(keys: set<Key>): (least: Key)
    requires keys != {}
    ensures IsLeast(least, keys)
  {
    LeastKeyWitness(keys);
    var least :| IsLeast(least, keys);
    least
  }

  lemma LeastKeyWitness(keys: set<Key>)
    requires keys != {}
    ensures exists least :: IsLeast(least, keys)
  {
    var least := LeastKeyExists(keys);
  }

  lemma LeastKeyExists(keys: set<Key>) returns (least: Key)
    requires keys != {}
    ensures IsLeast(least, keys)
  {
    var some :| some in keys;
    var others := keys - {some};
    assert forall k | k in keys :: k == some || k in others;
    if others == {} {
      least := some;
    } else {
      var rest := LeastKeyExists(others);
      KeysCompare(some, rest);
      least := if KeyBefore(rest, some) then rest else some;
    }
  }

  lemma KeysCompare(left: Key, right: Key)
    ensures left == right || KeyBefore(left, right) || KeyBefore(right, left)
  {
    match left case _ => match right case _ =>
  }

  function SortedKeys(keys: set<Key>): (result: seq<Key>)
    ensures Sorted(result)
    ensures forall k :: k in keys <==> k in result
  {
    if keys == {} then [] else
    var least := LeastKey(keys);
    [least] + SortedKeys(keys - {least})
  }

  lemma SomeElement(keys: seq<Key>)
    ensures keys == [] || exists k :: k in keys
  {
    if keys != [] { assert keys[0] in keys; }
  }

  /** A set of keys has one sorted enumeration. */
  lemma {:induction false} SortedKeysUnique(left: seq<Key>, right: seq<Key>)
    requires Sorted(left) && Sorted(right)
    requires forall k :: k in left <==> k in right
    ensures left == right
  {
    SomeElement(left);
    SomeElement(right);
    if left != [] {
      assert left[0] in right;
      assert left[0] in right && right[0] in left;
      assert left[0] == right[0];
      forall k ensures k in left[1..] <==> k in right[1..] {
        if k in left[1..] { assert k in right && k != right[0]; }
        if k in right[1..] { assert k in left && k != left[0]; }
      }
      SortedKeysUnique(left[1..], right[1..]);
    }
  }

  // ---------------------------------------------------------------------------------------------
  // What the reconciler decides, as a function of the set of sightings
  // ---------------------------------------------------------------------------------------------

  datatype Sighting = Sighting(observer: NodeId, path: Path)

  ghost function Sightings(observations: seq<Provenance>): set<Sighting> {
    set o | o in observations :: Sighting(o.observer, o.path)
  }

  ghost function StablesAt(seen: set<Sighting>, endpoint: Text): set<Text> {
    set s | s in seen && s.path.kind.PeerRelay? && s.path.endpoint == endpoint && endpoint != EMPTY &&
            s.path.stable != EMPTY :: s.path.stable
  }

  /** The stable ID that every relay sighting naming this endpoint agrees on, if there is exactly one. */
  ghost function AgreedStable(seen: set<Sighting>, endpoint: Text): Text {
    if exists s :: StablesAt(seen, endpoint) == {s} then
      var s :| StablesAt(seen, endpoint) == {s}; s
    else EMPTY
  }

  ghost function Enriched(path: Path, seen: set<Sighting>): Path {
    if path.kind.PeerRelay? && path.stable == EMPTY && AgreedStable(seen, path.endpoint) != EMPTY
    then path.(stable := AgreedStable(seen, path.endpoint), resolution := ENDPOINT_MATCH)
    else path
  }

  ghost function KeyIn(s: Sighting, seen: set<Sighting>): Key {
    KeyOf(Enriched(s.path, seen))
  }

  ghost function SupportedKeys(seen: set<Sighting>): set<Key> {
    set s | s in seen :: KeyIn(s, seen)
  }

  function Role(source: NodeId, target: NodeId, observer: NodeId): int {
    if observer == source then 0 else if observer == target then 1 else 2
  }

  predicate RankBefore(role: int, observer: NodeId, key: Key, role': int, observer': NodeId, key': Key) {
    || role < role'
    || (role == role' && observer < observer')
    || (role == role' && observer == observer' && KeyBefore(key, key'))
  }

  /** `key` is what the source end reports, failing that the target end, failing that the third party
      with the least ID. */
  ghost predicate Leads(key: Key, source: NodeId, target: NodeId, seen: set<Sighting>) {
    exists s | s in seen ::
      && KeyIn(s, seen) == key
      && forall t | t in seen ::
           !RankBefore(Role(source, target, t.observer), t.observer, KeyIn(t, seen),
                       Role(source, target, s.observer), s.observer, key)
  }

  /** A path of empty kind is no previous path at all. */
  function PreviousKey(previous: Path): Option<Key> {
    if previous.kind == NoKind then None else Some(KeyOf(previous))
  }

  /** The decision: a previous key that is still supported stays, otherwise the leading key is taken. */
  ghost predicate Decides(
    source: NodeId, target: NodeId, previous: Option<Key>, seen: set<Sighting>, primary: Key, conflicts: seq<Key>)
  {
    && (if previous.Some? && previous.value in SupportedKeys(seen)
        then primary == previous.value
        else Leads(primary, source, target, seen))
    && conflicts == SortedKeys(SupportedKeys(seen) - {primary})
  }

  lemma LeaderExists(source: NodeId, target: NodeId, seen: set<Sighting>)
    requires seen != {}
    ensures exists key :: Leads(key, source, target, seen)
  {
    var s := FirstSighting(source, target, seen, seen);
    assert Leads(KeyIn(s, seen), source, target, seen);
  }

  lemma FirstSighting(source: NodeId, target: NodeId, seen: set<Sighting>, among: set<Sighting>)
    returns (first: Sighting)
    requires among != {}
    ensures first in among
    ensures forall t | t in among ::
      !RankBefore(Role(source, target, t.observer), t.observer, KeyIn(t, seen),
                  Role(source, target, first.observer), first.observer, KeyIn(first, seen))
  {
    first :| first in among;
    var rest := among - {first};
    assert forall t | t in among :: t == first || t in rest;
    if rest != {} {
      var next := FirstSighting(source, target, seen, rest);
      if RankBefore(Role(source, target, next.observer), next.observer, KeyIn(next, seen),
                    Role(source, target, first.observer), first.observer, KeyIn(first, seen)) {
        first := next;
      }
    }
  }

  ghost function LeadKey(source: NodeId, target: NodeId, seen: set<Sighting>): (key: Key)
    requires seen != {}
    ensures Leads(key, source, target, seen)
  {
    LeaderExists(source, target, seen);
    var key :| Leads(key, source, target, seen);
    key
  }

  /** The primary key as a function of what was seen. */
  ghost function PrimaryKey(source: NodeId, target: NodeId, previous: Option<Key>, seen: set<Sighting>): (key: Key)
    requires seen != {}
    ensures Decides(source, target, previous, seen, key, SortedKeys(SupportedKeys(seen) - {key}))
  {
    if previous.Some? && previous.value in SupportedKeys(seen) then previous.value
    else LeadKey(source, target, seen)
  }

  /** There is one leading key, so `Decides` admits one answer. */
  lemma LeaderUnique(source: NodeId, target: NodeId, seen: set<Sighting>, left: Key, right: Key)
    requires Leads(left, source, target, seen) && Leads(right, source, target, seen)
    ensures left == right
  {
    var s :| s in seen && KeyIn(s, seen) == left &&
      forall t | t in seen ::
        !RankBefore(Role(source, target, t.observer), t.observer, KeyIn(t, seen),
                    Role(source, target, s.observer), s.observer, left);
    var u :| u in seen && KeyIn(u, seen) == right &&
      forall t | t in seen ::
        !RankBefore(Role(source, target, t.observer), t.observer, KeyIn(t, seen),
                    Role(source, target, u.observer), u.observer, right);
    assert !RankBefore(Role(source, target, s.observer), s.observer, left,
                       Role(source, target, u.observer), u.observer, right);
    assert !RankBefore(Role(source, target, u.observer), u.observer, right,
                       Role(source, target, s.observer), s.observer, left);
    assert !KeyBefore(left, right) && !KeyBefore(right, left);
  }

  /** The set of sightings fixes the decision. */
  lemma DecisionUnique(
    source: NodeId, target: NodeId, previous: Option<Key>, seen: set<Sighting>,
    left: Key, leftConflicts: seq<Key>, right: Key, rightConflicts: seq<Key>)
    requires Decides(source, target, previous, seen, left, leftConflicts)
    requires Decides(source, target, previous, seen, right, rightConflicts)
    ensures left == right && leftConflicts == rightConflicts
  {
    if !(previous.Some? && previous.value in SupportedKeys(seen)) {
      LeaderUnique(source, target, seen, left, right);
    }
  }

  /** What is left of an observation once every clock reading is dropped. */
  function Unclocked(observations: seq<Provenance>): (blind: seq<Sighting>)
    ensures |blind| == |observations|
    ensures forall i | 0 <= i < |blind| :: blind[i] == Sighting(observations[i].observer, observations[i].path)
  {
    seq(|observations|, i requires 0 <= i < |observations| =>
      Sighting(observations[i].observer, observations[i].path))
  }

  /** Reordering the observations and changing any clock reading leaves the decision alone. */
  lemma OrderAndClockFree(
    source: NodeId, target: NodeId, previous: Option<Key>, left: seq<Provenance>, right: seq<Provenance>,
    leftKey: Key, leftConflicts: seq<Key>, rightKey: Key, rightConflicts: seq<Key>)
    requires multiset(Unclocked(left)) == multiset(Unclocked(right))
    requires Decides(source, target, previous, Sightings(left), leftKey, leftConflicts)
    requires Decides(source, target, previous, Sightings(right), rightKey, rightConflicts)
    ensures leftKey == rightKey && leftConflicts == rightConflicts
  {
    SightingsAreUnclocked(left);
    SightingsAreUnclocked(right);
    assert forall s :: s in Unclocked(left) <==> s in multiset(Unclocked(left));
    assert forall s :: s in Unclocked(right) <==> s in multiset(Unclocked(right));
    assert Sightings(left) == Sightings(right);
    DecisionUnique(source, target, previous, Sightings(left), leftKey, leftConflicts, rightKey, rightConflicts);
  }

  lemma SightingsAreUnclocked(observations: seq<Provenance>)
    ensures forall s :: s in Sightings(observations) <==> s in Unclocked(observations)
  {
    forall s | s in Sightings(observations) ensures s in Unclocked(observations) {
      var o :| o in observations && s == Sighting(o.observer, o.path);
      var i :| 0 <= i < |observations| && observations[i] == o;
      assert Unclocked(observations)[i] == s;
    }
    forall s | s in Unclocked(observations) ensures s in Sightings(observations) {
      var i :| 0 <= i < |observations| && Unclocked(observations)[i] == s;
      assert observations[i] in observations;
    }
  }

  /** Feeding a result back as the previous path repeats it exactly when the result names its kind, or
      leads anyway: a path of empty kind counts as no previous path at all. */
  lemma Rerun(
    source: NodeId, target: NodeId, previous: Option<Key>, seen: set<Sighting>, result: Path, conflicts: seq<Key>,
    again: Key, againConflicts: seq<Key>)
    requires Decides(source, target, previous, seen, KeyOf(result), conflicts)
    requires Decides(source, target, PreviousKey(result), seen, again, againConflicts)
    ensures (again == KeyOf(result) && againConflicts == conflicts)
        <==> (result.kind != NoKind || Leads(KeyOf(result), source, target, seen))
  {
    if result.kind == NoKind && Leads(KeyOf(result), source, target, seen) {
      LeaderUnique(source, target, seen, KeyOf(result), again);
    } else if result.kind != NoKind {
      assert KeyOf(result) in SupportedKeys(seen);
    }
  }

  /** There is such a result: a path of empty kind that was supported, and is not what the source end reports. */
  lemma EmptyKindMoves()
    ensures var seen := {Sighting(1, NO_PATH.(kind := Direct)), Sighting(2, NO_PATH)};
      && Decides(1, 2, Some(UnknownKey), seen, KeyOf(NO_PATH), SortedKeys(SupportedKeys(seen) - {UnknownKey}))
      && forall key, conflicts | Decides(1, 2, PreviousKey(NO_PATH), seen, key, conflicts) :: key != KeyOf(NO_PATH)
  {
    var seen := {Sighting(1, NO_PATH.(kind := Direct)), Sighting(2, NO_PATH)};
    assert KeyIn(Sighting(1, NO_PATH.(kind := Direct)), seen) == DirectKey;
    assert KeyIn(Sighting(2, NO_PATH), seen) == UnknownKey;
    forall key, conflicts | Decides(1, 2, PreviousKey(NO_PATH), seen, key, conflicts) ensures key == DirectKey {
      assert Leads(DirectKey, 1, 2, seen);
      LeaderUnique(1, 2, seen, key, DirectKey);
    }
  }

  // ---------------------------------------------------------------------------------------------
  // The reconciler itself
  // ---------------------------------------------------------------------------------------------

  datatype Entry = Entry(path: Path, role: int, observer: NodeId, receivedAt: Time)

  function EnrichPath(path: Path, detail: Path): Path {
    match path.kind
    case Derp => if path.region == EMPTY then path.(region := detail.region) else path
    case PeerRelay =>
      path.(
        stable := if path.stable == EMPTY then detail.stable else path.stable,
        vni := if path.vni.None? then detail.vni else path.vni,
        endpoint := if path.endpoint == EMPTY then detail.endpoint else path.endpoint,
        resolution := if path.resolution == EMPTY then detail.resolution else path.resolution)
    case _ => path
  }

  /** Filling in the gaps of a path from one that carries the same evidence keeps that evidence. */
  lemma EnrichKeepsKey(path: Path, detail: Path)
    requires KeyOf(path) == KeyOf(detail)
    ensures KeyOf(EnrichPath(path, detail)) == KeyOf(path)
  {
  }

  method UniqueRelayStables(observations: seq<Provenance>) returns (result: map<Text, Text>)
    ensures forall e :: e in result <==> AgreedStable(Sightings(observations), e) != EMPTY
    ensures forall e | e in result :: result[e] == AgreedStable(Sightings(observations), e)
  {
    var candidates: map<Text, set<Text>> := map[];
    for i := 0 to |observations|
      invariant forall e | e in candidates :: candidates[e] == StablesAt(Sightings(observations[..i]), e)
      invariant forall e | e !in candidates :: StablesAt(Sightings(observations[..i]), e) == {}
    {
      var path := observations[i].path;
      StablesGrow(observations, i);
      if path.kind == PeerRelay && path.endpoint != EMPTY && path.stable != EMPTY {
        var known := if path.endpoint in candidates then candidates[path.endpoint] else {};
        candidates := candidates[path.endpoint := known + {path.stable}];
      }
    }
    assert observations[..|observations|] == observations;
    result := map[];
    ghost var seen := Sightings(observations);
    var todo := candidates.Keys;
    while todo != {}
      invariant todo <= candidates.Keys
      invariant result.Keys <= candidates.Keys - todo
      invariant forall e | e in candidates.Keys - todo :: e in result <==> AgreedStable(seen, e) != EMPTY
      invariant forall e | e in result :: result[e] == AgreedStable(seen, e)
    {
      var endpoint :| endpoint in todo;
      todo := todo - {endpoint};
      AgreedIsSingleton(seen, endpoint);
      if |candidates[endpoint]| == 1 {
        var stable :| stable in candidates[endpoint];
        SingletonOf(candidates[endpoint], stable);
        result := result[endpoint := stable];
      } else {
        forall s ensures candidates[endpoint] != {s} { }
      }
    }
    forall e | e !in candidates ensures AgreedStable(seen, e) == EMPTY { }
  }

  lemma SingletonOf(s: set<Text>, x: Text)
    requires x in s && |s| == 1
    ensures s == {x}
  {
    assert |s - {x}| == 0;
    assert s - {x} == {};
  }

  lemma AgreedIsSingleton(seen: set<Sighting>, endpoint: Text)
    ensures forall s :: StablesAt(seen, endpoint) == {s} ==> AgreedStable(seen, endpoint) == s && s != EMPTY
    ensures (forall s :: StablesAt(seen, endpoint) != {s}) ==> AgreedStable(seen, endpoint) == EMPTY
  {
    forall s | StablesAt(seen, endpoint) == {s}
      ensures AgreedStable(seen, endpoint) == s && s != EMPTY
    {
      assert s in StablesAt(seen, endpoint);
      var t := AgreedStable(seen, endpoint);
      assert t in {s};
    }
  }

  lemma StablesGrow(observations: seq<Provenance>, i: nat)
    requires i < |observations|
    ensures forall e :: (
      StablesAt(Sightings(observations[..i + 1]), e) ==
      StablesAt(Sightings(observations[..i]), e) +
      (var p := observations[i].path;
       if p.kind == PeerRelay && p.endpoint == e && e != EMPTY && p.stable != EMPTY then {p.stable} else {}))
  {
    SightingsGrow(observations, i);
  }

  lemma SightingsGrow(observations: seq<Provenance>, i: nat)
    requires i < |observations|
    ensures Sightings(observations[..i + 1]) ==
      Sightings(observations[..i]) + {Sighting(observations[i].observer, observations[i].path)}
  {
    assert observations[..i + 1] == observations[..i] + [observations[i]];
  }

  ghost function KeyAt(observations: seq<Provenance>, i: nat): Key
    requires i < |observations|
  {
    KeyIn(Sighting(observations[i].observer, observations[i].path), Sightings(observations))
  }

  /** After `n` observations: the entry of each key carries that key and the best rank seen for it. */
  ghost predicate EntriesOf(
    source: NodeId, target: NodeId, observations: seq<Provenance>, n: nat, entries: map<Key, Entry>)
    requires n <= |observations|
  {
    && (forall i | 0 <= i < n :: KeyAt(observations, i) in entries)
    && (forall k | k in entries :: EntryOf(source, target, observations, n, k, entries[k]))
  }

  /** The entry of one key: it names an observer of that key that no other is ranked before. */
  ghost predicate EntryOf(
    source: NodeId, target: NodeId, observations: seq<Provenance>, n: nat, k: Key, e: Entry)
    requires n <= |observations|
  {
    && KeyOf(e.path) == k
    && (exists i | 0 <= i < n :: KeyAt(observations, i) == k && observations[i].observer == e.observer)
    && e.role == Role(source, target, e.observer)
    && NoneBefore(source, target, observations, n, k, e)
  }

  ghost predicate NoneBefore(
    source: NodeId, target: NodeId, observations: seq<Provenance>, n: nat, k: Key, e: Entry)
    requires n <= |observations|
  {
    forall i | 0 <= i < n && KeyAt(observations, i) == k ::
      !RankBefore(Role(source, target, observations[i].observer), observations[i].observer, k, e.role, e.observer, k)
  }

  lemma EntryStays(
    source: NodeId, target: NodeId, observations: seq<Provenance>, n: nat, k: Key, e: Entry)
    requires n < |observations| && KeyAt(observations, n) != k
    requires EntryOf(source, target, observations, n, k, e)
    ensures EntryOf(source, target, observations, n + 1, k, e)
  {
    var i :| 0 <= i < n && KeyAt(observations, i) == k && observations[i].observer == e.observer;
  }

  /** The entry before it stands its ground against the next observation. */
  lemma EntryHolds(
    source: NodeId, target: NodeId, observations: seq<Provenance>, n: nat, k: Key, before: Entry, e: Entry)
    requires n < |observations| && KeyOf(e.path) == k && e.role == Role(source, target, e.observer)
    requires EntryOf(source, target, observations, n, k, before) && e.observer == before.observer
    requires !RankBefore(Role(source, target, observations[n].observer), observations[n].observer, k,
                         e.role, e.observer, k)
    ensures EntryOf(source, target, observations, n + 1, k, e)
  {
    var i :| 0 <= i < n && KeyAt(observations, i) == k && observations[i].observer == before.observer;
  }

  /** The next observation takes over, or is the first of its key. */
  lemma EntryTaken(
    source: NodeId, target: NodeId, observations: seq<Provenance>, n: nat, k: Key, before: Option<Entry>, e: Entry)
    requires n < |observations| && KeyOf(e.path) == k == KeyAt(observations, n)
    requires e.role == Role(source, target, e.observer) && e.observer == observations[n].observer
    requires if before.None? then forall i | 0 <= i < n :: KeyAt(observations, i) != k
             else NoneBefore(source, target, observations, n, k, before.value)
                  && !RankBefore(before.value.role, before.value.observer, k, e.role, e.observer, k)
    ensures EntryOf(source, target, observations, n + 1, k, e)
  {
    assert KeyAt(observations, n) == k && observations[n].observer == e.observer;
  }

  /** One more observation: either it takes over its key's entry, or that entry keeps its rank. */
  lemma EntriesExtend(
    source: NodeId, target: NodeId, observations: seq<Provenance>, n: nat, entries: map<Key, Entry>, entry: Entry)
    requires n < |observations|
    requires EntriesOf(source, target, observations, n, entries)
    requires KeyOf(entry.path) == KeyAt(observations, n)
    requires entry.role == Role(source, target, entry.observer)
    requires var key := KeyAt(observations, n);
      || (entry.observer == observations[n].observer
          && (key in entries ==>
                !RankBefore(entries[key].role, entries[key].observer, key, entry.role, entry.observer, key)))
      || (key in entries && entry.observer == entries[key].observer
          && !RankBefore(Role(source, target, observations[n].observer), observations[n].observer, key,
                         entry.role, entry.observer, key))
    ensures EntriesOf(source, target, observations, n + 1, entries[KeyAt(observations, n) := entry])
  {
    var key := KeyAt(observations, n);
    var extended := entries[key := entry];
    forall k | k in extended ensures EntryOf(source, target, observations, n + 1, k, extended[k]) {
      if k != key {
        EntryStays(source, target, observations, n, k, entries[k]);
      } else if entry.observer != observations[n].observer {
        EntryHolds(source, target, observations, n, key, entries[key], entry);
      } else {
        EntryTaken(source, target, observations, n, key, if key in entries then Some(entries[key]) else None, entry);
      }
    }
  }

  /** One turn of the loop over observations. */
  method Absorb(
    source: NodeId, target: NodeId, observations: seq<Provenance>, n: nat, stableAt: map<Text, Text>,
    entries: map<Key, Entry>)
    returns (extended: map<Key, Entry>)
    requires n < |observations|
    requires forall e :: e in stableAt <==> AgreedStable(Sightings(observations), e) != EMPTY
    requires forall e | e in stableAt :: stableAt[e] == AgreedStable(Sightings(observations), e)
    requires EntriesOf(source, target, observations, n, entries)
    ensures EntriesOf(source, target, observations, n + 1, extended)
  {
    var observation := observations[n];
    var path := observation.path;
    if path.kind == PeerRelay && path.stable == EMPTY && path.endpoint in stableAt {
      path := path.(stable := stableAt[path.endpoint], resolution := ENDPOINT_MATCH);
    }
    var key := KeyOf(path);
    assert key == KeyAt(observations, n);
    var role := Role(source, target, observation.observer);
    var entry := Entry(path, role, observation.observer, observation.receivedAt);
    if key in entries {
      var current := entries[key];
      var takesOver :=
        RankBefore(role, entry.observer, key, current.role, current.observer, key)
        || (role == current.role && entry.observer == current.observer && entry.receivedAt > current.receivedAt);
      if !takesOver {
        entry := current;
        if observation.receivedAt > current.receivedAt {
          EnrichKeepsKey(current.path, path);
          entry := current.(path := EnrichPath(current.path, path), receivedAt := observation.receivedAt);
        }
      }
    }
    EntriesExtend(source, target, observations, n, entries, entry);
    extended := entries[key := entry];
  }

  method ReconcilePathEvidence(source: NodeId, target: NodeId, previous: Path, observations: seq<Provenance>)
    returns (path: Path, conflicts: seq<Path>)
    ensures observations == [] ==> path == NO_PATH.(kind := UnknownPath) && conflicts == []
    ensures observations != [] ==>
      Decides(source, target, PreviousKey(previous), Sightings(observations), KeyOf(path), KeysOf(conflicts))
  {
    if observations == [] {
      return NO_PATH.(kind := UnknownPath), [];
    }
    var entries: map<Key, Entry> := map[];
    var stableAt := UniqueRelayStables(observations);
    for n := 0 to |observations|
      invariant EntriesOf(source, target, observations, n, entries)
    {
      entries := Absorb(source, target, observations, n, stableAt, entries);
    }
    EntriesAreSupported(source, target, observations, entries);
    var primary := KeyOf(previous);
    if primary !in entries || previous.kind == NoKind {
      primary := LeadingEntry(source, target, observations, entries);
    }
    path := entries[primary].path;
    conflicts := PathsAt(entries, SortedKeys(entries.Keys - {primary}));
  }

  function PathsAt(entries: map<Key, Entry>, keys: seq<Key>): (paths: seq<Path>)
    requires forall k | k in keys :: k in entries && KeyOf(entries[k].path) == k
    ensures KeysOf(paths) == keys
  {
    if keys == [] then [] else
    assert keys[0] in keys;
    [entries[keys[0]].path] + PathsAt(entries, keys[1..])
  }

  function KeysOf(paths: seq<Path>): (keys: seq<Key>)
    ensures |keys| == |paths|
    ensures forall i | 0 <= i < |paths| :: keys[i] == KeyOf(paths[i])
  {
    seq(|paths|, i requires 0 <= i < |paths| => KeyOf(paths[i]))
  }

  lemma EntriesAreSupported(
    source: NodeId, target: NodeId, observations: seq<Provenance>, entries: map<Key, Entry>)
    requires EntriesOf(source, target, observations, |observations|, entries)
    ensures entries.Keys == SupportedKeys(Sightings(observations))
  {
    var seen := Sightings(observations);
    forall k | k in entries.Keys ensures k in SupportedKeys(seen) {
      var i :| 0 <= i < |observations| && KeyAt(observations, i) == k;
      assert observations[i] in observations;
      assert Sighting(observations[i].observer, observations[i].path) in seen;
    }
    forall k | k in SupportedKeys(seen) ensures k in entries.Keys {
      var s :| s in seen && KeyIn(s, seen) == k;
      var o :| o in observations && s == Sighting(o.observer, o.path);
      var i :| 0 <= i < |observations| && observations[i] == o;
      assert KeyAt(observations, i) == k;
    }
  }

  /** The entry that comes first when entries are sorted by role, observer and key. */
  method LeadingEntry(
    source: NodeId, target: NodeId, ghost observations: seq<Provenance>, entries: map<Key, Entry>)
    returns (lead: Key)
    requires observations != []
    requires EntriesOf(source, target, observations, |observations|, entries)
    ensures lead in entries && Leads(lead, source, target, Sightings(observations))
  {
    assert KeyAt(observations, 0) in entries;
    lead :| lead in entries;
    var todo := entries.Keys - {lead};
    while todo != {}
      invariant todo <= entries.Keys
      invariant lead in entries
      invariant forall k | k in entries.Keys - todo :: !EntryBefore(entries, k, lead)
    {
      var key :| key in todo;
      LeadMoves(entries, entries.Keys - todo, lead, key);
      todo := todo - {key};
      if EntryBefore(entries, key, lead) {
        lead := key;
      }
    }
    FirstEntryLeads(source, target, observations, entries, lead);
  }

  predicate EntryBefore(entries: map<Key, Entry>, k: Key, l: Key)
    requires k in entries && l in entries
  {
    RankBefore(entries[k].role, entries[k].observer, k, entries[l].role, entries[l].observer, l)
  }

  /** An entry before the leading one is before every entry that the leading one is not after. */
  lemma LeadMoves(entries: map<Key, Entry>, done: set<Key>, lead: Key, key: Key)
    requires done <= entries.Keys && lead in entries && key in entries
    requires forall k | k in done :: !EntryBefore(entries, k, lead)
    ensures !EntryBefore(entries, key, key)
    ensures EntryBefore(entries, key, lead) ==> forall k | k in done :: !EntryBefore(entries, k, key)
  {
  }

  lemma FirstEntryLeads(
    source: NodeId, target: NodeId, observations: seq<Provenance>, entries: map<Key, Entry>, lead: Key)
    requires EntriesOf(source, target, observations, |observations|, entries)
    requires lead in entries
    requires forall k | k in entries.Keys :: !EntryBefore(entries, k, lead)
    ensures Leads(lead, source, target, Sightings(observations))
  {
    var seen := Sightings(observations);
    var i :| 0 <= i < |observations| && KeyAt(observations, i) == lead &&
             observations[i].observer == entries[lead].observer;
    var s := Sighting(observations[i].observer, observations[i].path);
    assert observations[i] in observations;
    assert s in seen;
    forall t | t in seen
      ensures !RankBefore(Role(source, target, t.observer), t.observer, KeyIn(t, seen),
                          Role(source, target, s.observer), s.observer, lead)
    {
      var o :| o in observations && t == Sighting(o.observer, o.path);
      var j :| 0 <= j < |observations| && observations[j] == o;
      var k := KeyAt(observations, j);
      assert k in entries;
      assert !EntryBefore(entries, k, lead);
      assert !RankBefore(Role(source, target, o.observer), o.observer, k, entries[k].role, entries[k].observer, k);
    }
  }

  // ---------------------------------------------------------------------------------------------
  // Directional paths: only an edge's own ends speak for a direction
  // ---------------------------------------------------------------------------------------------

  datatype Direction = Direction(
    from: NodeId,
    to: NodeId,
    primary: Path,
    fallback: Option<Path>,
    evidence: EvidenceKind,
    rule: Text,
    observer: NodeId,
    collectedAt: Time,
    receivedAt: Time)

  ghost function DirectionFrom(to: NodeId, o: Provenance, seen: set<Sighting>): Direction {
    Direction(o.observer, to, Enriched(o.path, seen),
              if o.fallback.Some? then Some(Enriched(o.fallback.value, seen)) else None,
              o.evidence, o.rule, o.observer, o.collectedAt, o.receivedAt)
  }

  /** The source's outbound path, then the target's, each only if that end observed the edge. */
  ghost function Directions(source: NodeId, target: NodeId, observed: map<NodeId, Provenance>, seen: set<Sighting>)
    : (result: seq<Direction>)
  {
    (if source in observed then [DirectionFrom(target, observed[source], seen)] else []) +
    (if target in observed && target != source then [DirectionFrom(source, observed[target], seen)] else [])
  }

  /** A set of observations is indexed by observer. */
  ghost predicate Indexes(observed: map<NodeId, Provenance>, observations: seq<Provenance>) {
    && (forall i | 0 <= i < |observations| ::
          observations[i].observer in observed && observed[observations[i].observer] == observations[i])
    && (forall n | n in observed :: observed[n] in observations && observed[n].observer == n)
    && (forall i, j | 0 <= i < j < |observations| :: observations[i].observer != observations[j].observer)
  }

  method EnrichDirectional(path: Path, stableAt: map<Text, Text>, ghost seen: set<Sighting>) returns (result: Path)
    requires forall e :: e in stableAt <==> AgreedStable(seen, e) != EMPTY
    requires forall e | e in stableAt :: stableAt[e] == AgreedStable(seen, e)
    ensures result == Enriched(path, seen)
  {
    result := path;
    if path.kind == PeerRelay && path.stable == EMPTY && path.endpoint in stableAt {
      result := path.(stable := stableAt[path.endpoint], resolution := ENDPOINT_MATCH);
    }
  }

  /** What one end has to say, in the order of its observations. */
  ghost function Speaks(end: NodeId, to: NodeId, observations: seq<Provenance>, seen: set<Sighting>): seq<Direction> {
    if |observations| == 0 then []
    else
      var before, last := Speaks(end, to, observations[..|observations| - 1], seen), observations[|observations| - 1];
      if last.observer == end then before + [DirectionFrom(to, last, seen)] else before
  }

  /** Everything the source says comes first, then everything the target says; several observations by one end
      may come in any order. */
  ghost predicate Projects(result: seq<Direction>, source: NodeId, target: NodeId, observations: seq<Provenance>) {
    var seen := Sightings(observations);
    exists n | 0 <= n <= |result| ::
      && multiset(result[..n]) == multiset(Speaks(source, target, observations, seen))
      && multiset(result[n..]) == multiset(if target == source then [] else Speaks(target, source, observations, seen))
  }

  method DirectionalPaths(source: NodeId, target: NodeId, observations: seq<Provenance>)
    returns (result: seq<Direction>)
    ensures Projects(result, source, target, observations)
  {
    var stableAt := UniqueRelayStables(observations);
    ghost var seen := Sightings(observations);
    var outbound, inbound: seq<Direction> := [], [];
    for n := 0 to |observations|
      invariant outbound == Speaks(source, target, observations[..n], seen)
      invariant inbound == if target == source then [] else Speaks(target, source, observations[..n], seen)
    {
      var o := observations[n];
      assert observations[..n + 1][..n] == observations[..n];
      if o.observer == source || o.observer == target {
        var primary := EnrichDirectional(o.path, stableAt, seen);
        var fallback := None;
        if o.fallback.Some? {
          var value := EnrichDirectional(o.fallback.value, stableAt, seen);
          fallback := Some(value);
        }
        var to := if o.observer == source then target else source;
        var direction := Direction(
          o.observer, to, primary, fallback, o.evidence, o.rule, o.observer, o.collectedAt, o.receivedAt);
        if o.observer == source {
          outbound := outbound + [direction];
        } else {
          inbound := inbound + [direction];
        }
      }
    }
    assert observations[..|observations|] == observations;
    result := outbound + inbound;
    assert result[..|outbound|] == outbound && result[|outbound|..] == inbound;
  }

  /** An end that observed the edge once speaks once. */
  lemma {:induction false} SpeaksOnce(
    end: NodeId, to: NodeId, observed: map<NodeId, Provenance>, observations: seq<Provenance>, n: nat,
    seen: set<Sighting>)
    requires Indexes(observed, observations) && n <= |observations|
    ensures Speaks(end, to, observations[..n], seen) ==
      if end in observed && observed[end] in observations[..n] then [DirectionFrom(to, observed[end], seen)] else []
  {
    if n > 0 {
      SpeaksOnce(end, to, observed, observations, n - 1, seen);
      assert observations[..n][..n - 1] == observations[..n - 1];
      assert observations[..n] == observations[..n - 1] + [observations[n - 1]];
      assert observations[n - 1].observer == end ==> forall p | p in observations[..n - 1] :: p.observer != end;
    }
  }

  lemma OneElement<T>(xs: seq<T>, ys: seq<T>)
    requires multiset(xs) == multiset(ys) && |ys| <= 1
    ensures xs == ys
  {
    assert |xs| == |multiset(xs)| == |multiset(ys)| == |ys|;
    if |xs| == 1 {
      assert xs[0] in multiset(ys);
    }
  }

  /** With one observation by each observer there is one order. */
  lemma ProjectedOnce(
    result: seq<Direction>, source: NodeId, target: NodeId, observed: map<NodeId, Provenance>,
    observations: seq<Provenance>)
    requires Indexes(observed, observations) && Projects(result, source, target, observations)
    ensures result == Directions(source, target, observed, Sightings(observations))
  {
    var seen := Sightings(observations);
    SpeaksOnce(source, target, observed, observations, |observations|, seen);
    SpeaksOnce(target, source, observed, observations, |observations|, seen);
    assert observations[..|observations|] == observations;
    var n :| 0 <= n <= |result|
      && multiset(result[..n]) == multiset(Speaks(source, target, observations, seen))
      && multiset(result[n..]) == multiset(if target == source then [] else Speaks(target, source, observations, seen));
    OneElement(result[..n], Speaks(source, target, observations, seen));
    OneElement(result[n..], if target == source then [] else Speaks(target, source, observations, seen));
    Halves(result, n);
  }

  lemma Halves<T>(s: seq<T>, n: nat)
    requires n <= |s|
    ensures s == s[..n] + s[n..]
  {
  }

  // ---------------------------------------------------------------------------------------------
  // Sameness of evidence
  // ---------------------------------------------------------------------------------------------

  function DirectAddress(endpoint: Endpoint): Text {
    match endpoint
    case NoEndpoint => EMPTY
    case Address(a) => a
    case AddressPort(a, _) => a
  }

  predicate SameDirectionalPath(left: Path, right: Path) {
    && KeyOf(left) == KeyOf(right)
    && (if left.kind == Direct then DirectAddress(left.direct) == DirectAddress(right.direct)
        else if left.kind != PeerRelay then true
        else left.endpoint == right.endpoint && left.vni == right.vni && left.resolution == right.resolution)
  }

  predicate SameOptionalPath(left: Option<Path>, right: Option<Path>) {
    if left.None? || right.None? then left.None? && right.None? else SameDirectionalPath(left.value, right.value)
  }

  predicate SameDirection(left: Direction, right: Direction) {
    && left.from == right.from
    && left.to == right.to
    && left.observer == right.observer
    && left.evidence == right.evidence
    && left.rule == right.rule
    && SameDirectionalPath(left.primary, right.primary)
    && SameOptionalPath(left.fallback, right.fallback)
  }

  predicate SameDirectionalPaths(left: seq<Direction>, right: seq<Direction>) {
    |left| == |right| && forall i | 0 <= i < |left| :: SameDirection(left[i], right[i])
  }

  /** The evidence of an edge as the transition log compares it: keys, and the directions in full. */
  datatype Evidence = Evidence(primary: Key, conflicts: seq<Key>, directions: seq<Direction>)

  predicate SameEvidence(left: Evidence, right: Evidence) {
    && left.primary == right.primary
    && left.conflicts == right.conflicts
    && SameDirectionalPaths(left.directions, right.directions)
  }

  method SamePathEvidence(
    path: Path, conflicts: seq<Path>, directions: seq<Direction>,
    path': Path, conflicts': seq<Path>, directions': seq<Direction>)
    returns (same: bool)
    ensures same <==> SameEvidence(Evidence(KeyOf(path), KeysOf(conflicts), directions),
                                   Evidence(KeyOf(path'), KeysOf(conflicts'), directions'))
  {
    if KeyOf(path) != KeyOf(path') || |conflicts| != |conflicts'| {
      return false;
    }
    for i := 0 to |conflicts|
      invariant forall j | 0 <= j < i :: KeyOf(conflicts[j]) == KeyOf(conflicts'[j])
    {
      if KeyOf(conflicts[i]) != KeyOf(conflicts'[i]) {
        assert KeysOf(conflicts)[i] != KeysOf(conflicts')[i];
        return false;
      }
    }
    assert KeysOf(conflicts) == KeysOf(conflicts');
    same := SameDirectionalPaths(directions, directions');
  }

  lemma SameIsEquivalence(a: Evidence, b: Evidence, c: Evidence)
    ensures SameEvidence(a, a)
    ensures SameEvidence(a, b) ==> SameEvidence(b, a)
    ensures SameEvidence(a, b) && SameEvidence(b, c) ==> SameEvidence(a, c)
  {
    forall p: Path, q: Path | SameDirectionalPath(p, q) ensures SameDirectionalPath(q, p) {
      SamePathSymmetric(p, q);
    }
    if SameEvidence(a, b) && SameEvidence(b, c) {
      forall i | 0 <= i < |a.directions| ensures SameDirection(a.directions[i], c.directions[i]) {
        assert SameDirection(a.directions[i], b.directions[i]) && SameDirection(b.directions[i], c.directions[i]);
        SamePathTransitive(a.directions[i].primary, b.directions[i].primary, c.directions[i].primary);
        if a.directions[i].fallback.Some? {
          SamePathTransitive(
            a.directions[i].fallback.value, b.directions[i].fallback.value, c.directions[i].fallback.value);
        }
      }
    }
  }

  lemma SamePathSymmetric(p: Path, q: Path)
    requires SameDirectionalPath(p, q)
    ensures SameDirectionalPath(q, p)
  {
  }

  lemma SamePathTransitive(p: Path, q: Path, r: Path)
    requires SameDirectionalPath(p, q) && SameDirectionalPath(q, r)
    ensures SameDirectionalPath(p, r)
  {
  }

  // ---------------------------------------------------------------------------------------------
  // The transition log of one edge
  // ---------------------------------------------------------------------------------------------

  /** `lastKnown` is rewritten by every report that touches the edge; `log` grows only on a change. */
  datatype Tracker = Tracker(lastKnown: Option<Evidence>, log: seq<Evidence>)

  predicate Changes(previous: Option<Evidence>, current: Evidence) {
    previous.None? || !SameEvidence(previous.value, current)
  }

  function Observe(tracker: Tracker, current: Evidence): Tracker {
    Tracker(Some(current), if Changes(tracker.lastKnown, current) then tracker.log + [current] else tracker.log)
  }

  function ObserveAll(history: seq<Evidence>): Tracker {
    if |history| == 0 then Tracker(None, [])
    else Observe(ObserveAll(history[..|history| - 1]), history[|history| - 1])
  }

  /** The log never stutters, its last entry is the same as what is known now, and no two neighbours
      in it are the same. */
  lemma {:induction false} LogWithoutStutter(history: seq<Evidence>)
    requires |history| > 0
    ensures var t := ObserveAll(history);
      && |t.log| > 0
      && t.lastKnown == Some(history[|history| - 1])
      && SameEvidence(t.log[|t.log| - 1], history[|history| - 1])
      && (forall i | 0 <= i < |t.log| - 1 :: !SameEvidence(t.log[i], t.log[i + 1]))
  {
    var before := history[..|history| - 1];
    var current := history[|history| - 1];
    SameIsEquivalence(current, current, current);
    if |before| > 0 {
      LogWithoutStutter(before);
      var t := ObserveAll(before);
      var last := t.log[|t.log| - 1];
      SameIsEquivalence(last, before[|before| - 1], current);
      SameIsEquivalence(before[|before| - 1], last, current);
      SameIsEquivalence(last, current, before[|before| - 1]);
      SameIsEquivalence(last, before[|before| - 1], last);
    }
  }

  /** Dropping every element that repeats the one before it. */
  function Collapse(history: seq<Evidence>): seq<Evidence> {
    if |history| <= 1 then history
    else
      var before := history[..|history| - 1];
      var current := history[|history| - 1];
      if SameEvidence(before[|before| - 1], current) then Collapse(before) else Collapse(before) + [current]
  }

  /** Nothing is lost and nothing is invented: the log is the history with repetitions collapsed. */
  lemma {:induction false} LogIsCollapsedHistory(history: seq<Evidence>)
    ensures ObserveAll(history).log == Collapse(history)
    ensures |history| > 0 ==> ObserveAll(history).lastKnown == Some(history[|history| - 1])
  {
    if |history| > 1 {
      LogIsCollapsedHistory(history[..|history| - 1]);
    } else if |history| == 1 {
      assert history[..0] == [];
    }
  }
}
