/** One exporter's envelopes, the network that may lose, delay and repeat them, and what the server keeps
    of them (internal/aggregate/aggregator.go: admission, claiming, withdrawing and pruning, seen from one
    reporter whose identities are distinct and never merged). */
module Wire {
  import opened Names
  import opened Admission
  import opened Meters

  /** A registration key, the name of a source of the exporter. */
  type Key = nat

  /** An identity key and the source that observes it: no two sources observe the same identity. Distinct
      identities are distinct nodes. */
  datatype Id = Id(source: Key, name: Text)

  datatype Entry = Entry(id: Id, generation: Text, deltas: Counts)

  /** Every envelope has a report ID of its own, so the sequence number stands for it. */
  datatype Envelope = Envelope(sequence: nat, kind: Kind, entries: seq<Entry>)

  datatype Observed = Observed(ours: bool, generation: Text)

  datatype Server = Server(memory: Memory, observers: map<Id, Observed>)

  datatype Receipt = Receipt(accepted: bool, resync: bool)

  predicate Owns(s: Server, id: Id) {
    id in s.observers && s.observers[id].ours
  }

  predicate OwnsAll(s: Server, entries: seq<Entry>) {
    forall i | 0 <= i < |entries| :: Owns(s, entries[i].id)
  }

  predicate OwnsNothing(s: Server) {
    forall id | id in s.observers :: !s.observers[id].ours
  }

  /** What one entry of an admitted envelope does to the observer it names. */
  function Effect(observers: map<Id, Observed>, kind: Kind, e: Entry): map<Id, Observed> {
    var known := if e.id in observers then observers[e.id] else Observed(false, EMPTY);
    match kind
    case Hello => observers[e.id := Observed(true, e.generation)]
    case InventoryUpdate => observers[e.id := known.(generation := e.generation)]
    case Withdrawal => observers[e.id := known.(ours := false)]
    case RelayUpdate => observers[e.id := known.(ours := true)]
    case TrafficSample => observers
    case Heartbeat => observers
  }

  function Effects(observers: map<Id, Observed>, kind: Kind, entries: seq<Entry>): map<Id, Observed> {
    if |entries| == 0 then observers
    else Effect(Effects(observers, kind, entries[..|entries| - 1]), kind, entries[|entries| - 1])
  }

  predicate Outdated(s: Server, e: Envelope) {
    && (e.kind == TrafficSample || e.kind == Heartbeat)
    && exists i | 0 <= i < |e.entries| ::
         !(e.entries[i].id in s.observers && s.observers[e.entries[i].id].generation == e.entries[i].generation)
  }

  function Receive(s: Server, e: Envelope, at: Time): (Server, Receipt) {
    match Judge(s.memory, e.kind, e.sequence, e.sequence, OwnsAll(s, e.entries))
    case Duplicate => (s, Receipt(true, false))
    case Stale => (s, Receipt(false, false))
    case NotOwner => (s, Receipt(false, true))
    case Admit(resync) =>
      (Server(Remember(s.memory, e.sequence, e.sequence, at), Effects(s.observers, e.kind, e.entries)),
       Receipt(true, resync || Outdated(s, e)))
  }

  predicate Admits(s: Server, e: Envelope) {
    Judge(s.memory, e.kind, e.sequence, e.sequence, OwnsAll(s, e.entries)).Admit?
  }

  // ---------------------------------------------------------------------------------------------
  // The world between the exporter's sends
  // ---------------------------------------------------------------------------------------------

  /** `network` holds every envelope that may still arrive, once or again; `applied` those the server
      admitted, in order. `late` are the envelopes still on their way when the server forgot this
      reporter's sequence numbers, and `taken` the identities that another reporter has claimed. */
  datatype World = World(
    server: Server, network: set<Envelope>, applied: seq<Envelope>, late: set<Envelope>, taken: set<Id>)

  const NEW_WORLD := World(Server(NO_MEMORY, map[]), {}, [], {}, {})

  datatype Event =
    | Deliver(envelope: Envelope, at: Time)
    | Lose(envelope: Envelope)
    | Forget
    | TakeOver(id: Id, generation: Text)

  /** A reporter that owns nothing is pruned, or deleted by the claim that took its last observer. */
  function Forgotten(w: World): World {
    if OwnsNothing(w.server) then w.(server := w.server.(memory := NO_MEMORY), late := w.late + w.network) else w
  }

  function Arrived(w: World, e: Envelope, at: Time): World {
    w.(server := Receive(w.server, e, at).0, applied := if Admits(w.server, e) then w.applied + [e] else w.applied)
  }

  function Taken(w: World, id: Id, generation: Text): World {
    w.(server := w.server.(observers := w.server.observers[id := Observed(false, generation)]), taken := w.taken + {id})
  }

  function Happen(w: World, event: Event): World {
    match event
    case Deliver(e, at) => if e in w.network then Arrived(w, e, at) else w
    case Lose(e) => w.(network := w.network - {e})
    case Forget => Forgotten(w)
    case TakeOver(id, generation) =>
      if Owns(w.server, id) then Forgotten(Taken(w, id, generation)) else Taken(w, id, generation)
  }

  function HappenAll(w: World, events: seq<Event>): World {
    if |events| == 0 then w else Happen(HappenAll(w, events[..|events| - 1]), events[|events| - 1])
  }

  // ---------------------------------------------------------------------------------------------
  // What can be said of it at any time
  // ---------------------------------------------------------------------------------------------

  predicate ClaimsId(e: Envelope, id: Id) {
    (e.kind == Hello || e.kind == RelayUpdate) && exists i | 0 <= i < |e.entries| :: e.entries[i].id == id
  }

  ghost predicate LateClaim(w: World, id: Id) {
    exists e :: e in w.late && ClaimsId(e, id)
  }

  /** The server owns the observer, or an envelope on its way would make it. */
  ghost predicate MayBeOurs(w: World, id: Id) {
    Owns(w.server, id) || exists e :: e in w.network && e.sequence > w.server.memory.lastSequence && ClaimsId(e, id)
  }

  ghost predicate DistinctIds(e: Envelope) {
    forall i, j | 0 <= i < j < |e.entries| :: e.entries[i].id != e.entries[j].id
  }

  ghost predicate Remembers(m: Memory, top: nat) {
    && 0 <= m.lastSequence <= top
    && (m.lastSequence > 0 ==> m.lastSequence in m.reportIds)
    && forall i | i in m.reportIds :: 0 < i <= m.lastSequence
  }

  ghost predicate OwnsAt(w: World, id: Id, generation: Text) {
    Owns(w.server, id) && w.server.observers[id].generation == generation
  }

  /** An answered envelope has done what it was sent for, and nothing on its way can undo that. */
  ghost predicate Settled(w: World, e: Envelope) {
    && (e.kind == Withdrawal ==> forall i | 0 <= i < |e.entries| ::
          MayBeOurs(w, e.entries[i].id) ==> LateClaim(w, e.entries[i].id))
    && ((e.kind == Hello || e.kind == InventoryUpdate) && w.taken == {} ==>
          && e.sequence <= w.server.memory.lastSequence
          && forall i | 0 <= i < |e.entries| :: OwnsAt(w, e.entries[i].id, e.entries[i].generation))
  }

  ghost predicate Increasing(applied: seq<Envelope>) {
    forall i, j | 0 <= i < j < |applied| :: applied[i].sequence < applied[j].sequence
  }

  /** Unless something was late, what was admitted was admitted once and in order. */
  ghost predicate OnceOnly(w: World, top: nat) {
    w.late == {} ==>
      && Increasing(w.applied)
      && (forall a | a in w.applied :: a.sequence <= top)
      && (forall a, e {:trigger a in w.applied, e in w.network} | a in w.applied && e in w.network
        && e.sequence > w.server.memory.lastSequence ::
            a.sequence < e.sequence)
  }

  /** `top` is the last sequence number that the exporter has used. */
  ghost predicate Coherent(w: World, top: nat) {
    && (forall e | e in w.network :: 0 < e.sequence <= top && DistinctIds(e))
    && (forall e, f {:trigger e in w.network, f in w.network} | e in w.network && f in w.network
      && e.sequence == f.sequence :: e == f)
    && Remembers(w.server.memory, top)
    && (forall e | e in w.network && e.sequence == top && top == w.server.memory.lastSequence :: Settled(w, e))
    && OnceOnly(w, top)
  }

  /** What every event keeps: nothing becomes ours but by a late claim, and late and taken only grow. */
  ghost predicate Shrinks(w: World, v: World) {
    && (forall id | MayBeOurs(v, id) :: MayBeOurs(w, id) || LateClaim(v, id))
    && w.late <= v.late && w.taken <= v.taken && v.network <= w.network
    && (forall a | a in v.applied :: a in w.applied || a in w.network)
  }

  lemma {:induction false} EffectsAt(observers: map<Id, Observed>, kind: Kind, entries: seq<Entry>, id: Id)
    ensures var after := Effects(observers, kind, entries);
      if exists i | 0 <= i < |entries| :: entries[i].id == id then
        && (kind == Hello || kind == RelayUpdate ==> id in after && after[id].ours)
        && (kind == Withdrawal ==> id in after && !after[id].ours)
        && (kind != Hello && kind != InventoryUpdate && id in observers ==>
              id in after && after[id].generation == observers[id].generation)
        && (kind == InventoryUpdate ==>
              id in after && after[id].ours == (id in observers && observers[id].ours))
        && (kind == TrafficSample || kind == Heartbeat ==>
              (id in after <==> id in observers) && (id in observers ==> after[id] == observers[id]))
      else (id in after <==> id in observers) && (id in observers ==> after[id] == observers[id])
  {
    if |entries| > 0 {
      var before, last := entries[..|entries| - 1], entries[|entries| - 1];
      assert forall i | 0 <= i < |before| :: before[i] == entries[i];
      EffectsAt(observers, kind, before, id);
    }
  }

  /** With distinct identities the generation left behind is the one in the entry. */
  lemma {:induction false} EffectsSetGeneration(observers: map<Id, Observed>, kind: Kind, entries: seq<Entry>, i: nat)
    requires i < |entries| && (kind == Hello || kind == InventoryUpdate)
    requires forall j, k | 0 <= j < k < |entries| :: entries[j].id != entries[k].id
    ensures entries[i].id in Effects(observers, kind, entries)
    ensures Effects(observers, kind, entries)[entries[i].id].generation == entries[i].generation
  {
    var before := entries[..|entries| - 1];
    if i < |entries| - 1 {
      EffectsSetGeneration(observers, kind, before, i);
      assert entries[i].id != entries[|entries| - 1].id;
    }
  }

  lemma DeliverSettles(w: World, top: nat, e: Envelope, at: Time)
    requires Coherent(w, top) && e in w.network && Admits(w.server, e)
    ensures e.sequence == top ==> Settled(Arrived(w, e, at), e)
    ensures forall id | MayBeOurs(Arrived(w, e, at), id) :: MayBeOurs(w, id)
  {
    var v := Arrived(w, e, at);
    forall id | MayBeOurs(v, id) ensures MayBeOurs(w, id) {
      EffectsAt(w.server.observers, e.kind, e.entries, id);
      if Owns(v.server, id) && !Owns(w.server, id) {
        assert ClaimsId(e, id);
      }
    }
    forall i | 0 <= i < |e.entries|
      ensures e.kind == Withdrawal ==> !Owns(v.server, e.entries[i].id)
      ensures e.kind == Hello || e.kind == InventoryUpdate ==> OwnsAt(v, e.entries[i].id, e.entries[i].generation)
    {
      EffectsAt(w.server.observers, e.kind, e.entries, e.entries[i].id);
      if e.kind == Hello || e.kind == InventoryUpdate {
        EffectsSetGeneration(w.server.observers, e.kind, e.entries, i);
      }
    }
  }

  lemma AppliedOnce(w: World, top: nat, e: Envelope, at: Time)
    requires Coherent(w, top) && e in w.network && Admits(w.server, e)
    ensures OnceOnly(Arrived(w, e, at), top)
  {
    var v := Arrived(w, e, at);
    assert v.server.memory.lastSequence == e.sequence;
    if v.late == {} {
      forall i, j | 0 <= i < j < |v.applied| ensures v.applied[i].sequence < v.applied[j].sequence {
        assert v.applied[i] in w.applied;
      }
      forall a, f | a in v.applied && f in v.network && f.sequence > e.sequence ensures a.sequence < f.sequence {
        assert a in w.applied || a == e;
      }
    }
  }

  lemma DeliverKeeps(w: World, top: nat, e: Envelope, at: Time)
    requires Coherent(w, top) && e in w.network
    ensures Coherent(Arrived(w, e, at), top) && Shrinks(w, Arrived(w, e, at))
  {
    if Admits(w.server, e) {
      var v := Arrived(w, e, at);
      DeliverSettles(w, top, e, at);
      assert v.server.memory.lastSequence == e.sequence;
      AppliedOnce(w, top, e, at);
    } else {
      assert Arrived(w, e, at) == w;
    }
  }

  lemma ForgetKeeps(w: World, top: nat)
    requires Coherent(w, top)
    ensures Coherent(Forgotten(w), top) && Shrinks(w, Forgotten(w))
  {
    var v := Forgotten(w);
    if v != w {
      forall id | MayBeOurs(v, id) ensures LateClaim(v, id) {
        var e :| e in v.network && ClaimsId(e, id);
        assert e in v.late;
      }
    }
  }

  lemma TakeOverKeeps(w: World, top: nat, id: Id, generation: Text)
    requires Coherent(w, top)
    ensures Coherent(Taken(w, id, generation), top) && Shrinks(w, Taken(w, id, generation))
  {
    var v := Taken(w, id, generation);
    forall x | MayBeOurs(v, x) ensures MayBeOurs(w, x) {
      if Owns(v.server, x) { assert Owns(w.server, x); }
    }
    forall e | e in v.network && e.sequence == top && top == v.server.memory.lastSequence ensures Settled(v, e) {
      assert Settled(w, e);
    }
  }

  lemma LoseKeeps(w: World, top: nat, e: Envelope)
    requires Coherent(w, top)
    ensures Coherent(w.(network := w.network - {e}), top) && Shrinks(w, w.(network := w.network - {e}))
  {
    var v := w.(network := w.network - {e});
    forall id | MayBeOurs(v, id) ensures MayBeOurs(w, id) { }
    forall f | f in v.network && f.sequence == top && top == v.server.memory.lastSequence ensures Settled(v, f) {
      assert Settled(w, f);
    }
  }

  lemma ShrinksOn(u: World, v: World, w: World)
    requires Shrinks(u, v) && Shrinks(v, w)
    ensures Shrinks(u, w)
  {
    forall id | MayBeOurs(w, id) ensures MayBeOurs(u, id) || LateClaim(w, id) {
      if LateClaim(v, id) {
        var e :| e in v.late && ClaimsId(e, id);
        assert e in w.late;
      }
    }
  }

  lemma HappenKeeps(w: World, top: nat, event: Event)
    requires Coherent(w, top)
    ensures Coherent(Happen(w, event), top) && Shrinks(w, Happen(w, event))
  {
    match event
    case Deliver(e, at) => if e in w.network { DeliverKeeps(w, top, e, at); }
    case Lose(e) => LoseKeeps(w, top, e);
    case Forget => ForgetKeeps(w, top);
    case TakeOver(id, generation) =>
      TakeOverKeeps(w, top, id, generation);
      ForgetKeeps(Taken(w, id, generation), top);
      ShrinksOn(w, Taken(w, id, generation), Forgotten(Taken(w, id, generation)));
  }

  /** Whatever the network and the other reporters do, in any order and any number of times. */
  lemma {:induction false} HappenAllKeeps(w: World, top: nat, events: seq<Event>)
    requires Coherent(w, top)
    ensures Coherent(HappenAll(w, events), top) && Shrinks(w, HappenAll(w, events))
  {
    if |events| > 0 {
      HappenAllKeeps(w, top, events[..|events| - 1]);
      var mid := HappenAll(w, events[..|events| - 1]);
      HappenKeeps(mid, top, events[|events| - 1]);
      ShrinksOn(w, mid, HappenAll(w, events));
    }
  }

  // ---------------------------------------------------------------------------------------------
  // One send
  // ---------------------------------------------------------------------------------------------

  /** How a send ends for the exporter: the server refuses the body (400 or 413) and never applies it, no
      answer arrives, or the receipt of one of the envelope's arrivals does. */
  datatype Answer = Refused | Lost | Answered

  /** What a receipt announces: the control nodes, and the interval between heartbeats. */
  datatype Settings = Settings(controls: set<Text>, milliseconds: int)

  /** What happens around a send, before and after the arrival that is answered, and what the answer announces. */
  datatype Fate = Fate(before: seq<Event>, answer: Answer, at: Time, after: seq<Event>, settings: Settings)

  datatype Reply = Refusal | NoReply | Reply(receipt: Receipt)

  function Launched(w: World, e: Envelope): World {
    w.(network := w.network + {e})
  }

  function Send(w: World, e: Envelope, fate: Fate): (World, Reply) {
    if fate.answer == Refused then (HappenAll(HappenAll(w, fate.before), fate.after), Refusal)
    else
      var launched := HappenAll(Launched(w, e), fate.before);
      if fate.answer == Lost || e !in launched.network then (HappenAll(launched, fate.after), NoReply)
      else (HappenAll(Arrived(launched, e, fate.at), fate.after), Reply(Receive(launched.server, e, fate.at).1))
  }

  lemma LaunchKeeps(w: World, e: Envelope)
    requires e.sequence > 0 && Coherent(w, e.sequence - 1) && DistinctIds(e)
    ensures Coherent(Launched(w, e), e.sequence)
    ensures forall id | MayBeOurs(Launched(w, e), id) :: MayBeOurs(w, id) || ClaimsId(e, id)
  {
    forall id | MayBeOurs(Launched(w, e), id) ensures MayBeOurs(w, id) || ClaimsId(e, id) {
      if !Owns(w.server, id) {
        var f :| f in w.network + {e} && f.sequence > w.server.memory.lastSequence && ClaimsId(f, id);
      }
    }
  }

  lemma SettledStays(w: World, v: World, e: Envelope)
    requires Settled(w, e) && Shrinks(w, v) && e.kind == Withdrawal
    ensures Settled(v, e)
  {
    forall i | 0 <= i < |e.entries| && MayBeOurs(v, e.entries[i].id) ensures LateClaim(v, e.entries[i].id) {
      if LateClaim(w, e.entries[i].id) {
        var f :| f in w.late && ClaimsId(f, e.entries[i].id);
        assert f in v.late;
      }
    }
  }

  /** Whatever happens during a send: the world stays coherent, nothing becomes ours but what the envelope
      claims, and only if it was not refused; and a hello, a withdrawal or a relay update that is answered
      is accepted. */
  lemma SendKeeps(w: World, e: Envelope, fate: Fate)
    requires e.sequence > 0 && Coherent(w, e.sequence - 1) && DistinctIds(e)
    ensures var (v, reply) := Send(w, e, fate);
      && Coherent(v, e.sequence)
      && (forall id | MayBeOurs(v, id) :: MayBeOurs(w, id) || (ClaimsId(e, id) && !reply.Refusal?) || LateClaim(v, id))
      && w.late <= v.late && w.taken <= v.taken
      && v.network <= w.network + (if reply.Refusal? then {} else {e})
      && (forall a | a in v.applied :: a in w.applied || a in w.network || (a == e && !reply.Refusal?))
      && (reply.Reply? && !NeedsOwnership(e.kind) ==> reply.receipt.accepted)
      && (reply.Reply? && reply.receipt.accepted && e.kind == Withdrawal ==> Settled(v, e))
  {
    var (v, reply) := Send(w, e, fate);
    if fate.answer == Refused {
      HappenAllKeeps(w, e.sequence - 1, fate.before);
      var mid := HappenAll(w, fate.before);
      HappenAllKeeps(mid, e.sequence - 1, fate.after);
      ShrinksOn(w, mid, v);
      CoherentLater(v, e.sequence - 1);
    } else {
      LaunchKeeps(w, e);
      var launched := Launched(w, e);
      HappenAllKeeps(launched, e.sequence, fate.before);
      var mid := HappenAll(launched, fate.before);
      if fate.answer == Lost || e !in mid.network {
        HappenAllKeeps(mid, e.sequence, fate.after);
        ShrinksOn(launched, mid, v);
      } else {
        var arrived := Arrived(mid, e, fate.at);
        DeliverKeeps(mid, e.sequence, e, fate.at);
        ShrinksOn(launched, mid, arrived);
        HappenAllKeeps(arrived, e.sequence, fate.after);
        ShrinksOn(launched, arrived, v);
        AnswerSettles(mid, e, fate.at);
        if reply.receipt.accepted && e.kind == Withdrawal {
          SettledStays(arrived, v, e);
        }
      }
    }
  }

  lemma CoherentLater(w: World, top: nat)
    requires Coherent(w, top)
    ensures Coherent(w, top + 1)
  {
  }

  /** The receipt of the newest envelope's arrival: accepted means done, now or on an earlier arrival. */
  lemma AnswerSettles(w: World, e: Envelope, at: Time)
    requires Coherent(w, e.sequence) && e in w.network
    ensures var receipt := Receive(w.server, e, at).1;
      && (!NeedsOwnership(e.kind) ==> receipt.accepted)
      && (receipt.accepted ==>
            Settled(Arrived(w, e, at), e) && Arrived(w, e, at).server.memory.lastSequence == e.sequence)
  {
    if Admits(w.server, e) {
      DeliverSettles(w, e.sequence, e, at);
    } else {
      assert Arrived(w, e, at) == w;
    }
  }

  // ---------------------------------------------------------------------------------------------
  // What the exporter may believe
  // ---------------------------------------------------------------------------------------------

  /** Unless another reporter interfered, the server records the observer as ours with this generation, and
      no envelope on its way, save perhaps one, can change that. */
  ghost predicate Holds(w: World, id: Id, generation: Text, except: set<Envelope>) {
    w.taken == {} ==>
      && OwnsAt(w, id, generation)
      && forall e | e in w.network && e !in except :: e.sequence <= w.server.memory.lastSequence
  }

  predicate Leaves(e: Envelope, id: Id) {
    || e.kind == TrafficSample || e.kind == Heartbeat || e.kind == RelayUpdate
    || forall i | 0 <= i < |e.entries| :: e.entries[i].id != id
  }

  lemma HappenHolds(w: World, id: Id, generation: Text, except: set<Envelope>, event: Event)
    requires Holds(w, id, generation, except)
    requires forall e | e in except :: Leaves(e, id)
    ensures Holds(Happen(w, event), id, generation, except)
  {
    match event
    case Deliver(e, at) =>
      if w.taken == {} && e in w.network && Admits(w.server, e) {
        assert e in except;
        EffectsAt(w.server.observers, e.kind, e.entries, id);
      }
    case Lose(e) =>
    case Forget =>
    case TakeOver(x, g) =>
      assert x in Taken(w, x, g).taken;
  }

  lemma {:induction false} HappenAllHolds(w: World, id: Id, generation: Text, except: set<Envelope>, events: seq<Event>)
    requires Holds(w, id, generation, except)
    requires forall e | e in except :: Leaves(e, id)
    ensures Holds(HappenAll(w, events), id, generation, except)
  {
    if |events| > 0 {
      HappenAllHolds(w, id, generation, except, events[..|events| - 1]);
      HappenHolds(HappenAll(w, events[..|events| - 1]), id, generation, except, events[|events| - 1]);
    }
  }

  /** A belief about another observer survives a send that is refused or accepted. */
  lemma SendHolds(w: World, e: Envelope, fate: Fate, id: Id, generation: Text)
    requires e.sequence > 0 && Coherent(w, e.sequence - 1) && DistinctIds(e)
    requires Holds(w, id, generation, {}) && Leaves(e, id)
    ensures var (v, reply) := Send(w, e, fate);
      reply.Refusal? || (reply.Reply? && reply.receipt.accepted) ==> Holds(v, id, generation, {})
  {
    if fate.answer == Refused {
      HappenAllHolds(w, id, generation, {}, fate.before);
      HappenAllHolds(HappenAll(w, fate.before), id, generation, {}, fate.after);
    } else {
      LaunchKeeps(w, e);
      var launched := Launched(w, e);
      HappenAllKeeps(launched, e.sequence, fate.before);
      HappenAllHolds(launched, id, generation, {e}, fate.before);
      var mid := HappenAll(launched, fate.before);
      if fate.answer == Answered && e in mid.network {
        AnswerSettles(mid, e, fate.at);
        HappenHolds(mid, id, generation, {e}, Deliver(e, fate.at));
        var arrived := Arrived(mid, e, fate.at);
        if Receive(mid.server, e, fate.at).1.accepted {
          DeliverKeeps(mid, e.sequence, e, fate.at);
          assert Holds(arrived, id, generation, {});
          HappenAllHolds(arrived, id, generation, {}, fate.after);
        }
      }
    }
  }

  /** An accepted hello or inventory update establishes the belief about each observer in it. */
  lemma SendEstablishes(w: World, e: Envelope, fate: Fate, i: nat)
    requires e.sequence > 0 && Coherent(w, e.sequence - 1) && DistinctIds(e)
    requires (e.kind == Hello || e.kind == InventoryUpdate) && i < |e.entries|
    ensures var (v, reply) := Send(w, e, fate);
      reply.Reply? && reply.receipt.accepted ==> Holds(v, e.entries[i].id, e.entries[i].generation, {})
  {
    if fate.answer == Answered {
      LaunchKeeps(w, e);
      HappenAllKeeps(Launched(w, e), e.sequence, fate.before);
      var mid := HappenAll(Launched(w, e), fate.before);
      if e in mid.network {
        AnswerSettles(mid, e, fate.at);
        DeliverKeeps(mid, e.sequence, e, fate.at);
        var arrived := Arrived(mid, e, fate.at);
        if Receive(mid.server, e, fate.at).1.accepted {
          assert Holds(arrived, e.entries[i].id, e.entries[i].generation, {});
          HappenAllHolds(arrived, e.entries[i].id, e.entries[i].generation, {}, fate.after);
        }
      }
    }
  }

  /** A new world is coherent, and nothing in it is ours. */
  lemma NewWorldIsCoherent()
    ensures Coherent(NEW_WORLD, 0)
    ensures forall id :: !MayBeOurs(NEW_WORLD, id)
  {
  }
}
