/**
  Subscribers, readers and deliveries in any order.  A delivery looks at the account's streams; its
  broadcast takes a snapshot of them in a later step and writes to them one by one.
*/
module StreamInterleaving {
  import opened Basics
  import opened SopStreams

  /** A broadcast under way: its snapshot, the streams still to be written, the writes refused. */
  datatype Flight = Flight(snapshot: set<nat>, todo: seq<nat>, missed: set<nat>)

  /** What a delivery saw: the streams of its account when it read the connected devices. */
  datatype Sight = Sight(account: nat, streams: set<nat>)

  /** Deliveries, and the broadcasts they make, go by one number. */
  datatype System = System(
    streams: map<nat, Queue>,
    registry: map<nat, set<nat>>,
    seen: map<nat, Sight>,
    flights: map<nat, Flight>)

  ghost predicate Init(s: System) {
    s == System(map[], map[], map[], map[])
  }

  function StreamsOf(s: System, account: nat): set<nat> {
    if account in s.registry then s.registry[account] else {}
  }

  ghost predicate SubscribeStep(s: System, t: System, account: nat, id: nat) {
    && id !in s.streams
    && t == s.(streams := s.streams[id := EMPTY_QUEUE],
               registry := s.registry[account := StreamsOf(s, account) + {id}])
  }

  ghost predicate UnsubscribeStep(s: System, t: System, account: nat, id: nat) {
    if id in StreamsOf(s, account) && id in s.streams then
      var rest := s.registry[account] - {id};
      t == s.(streams := s.streams[id := Complete(s.streams[id])],
              registry := if rest == {} then s.registry - {account} else s.registry[account := rest])
    else t == s
  }

  ghost predicate LookStep(s: System, t: System, account: nat, broadcast: nat) {
    && broadcast !in s.seen
    && t == s.(seen := s.seen[broadcast := Sight(account, StreamsOf(s, account))])
  }

  ghost predicate SnapshotStep(s: System, t: System, broadcast: nat, order: seq<nat>) {
    && broadcast in s.seen && broadcast !in s.flights
    && var snapshot := StreamsOf(s, s.seen[broadcast].account);
       && Distinct(order) && (forall id :: id in order <==> id in snapshot)
       && t == s.(flights := s.flights[broadcast := Flight(snapshot, order, {})])
  }

  ghost predicate WriteStep(s: System, t: System, broadcast: nat) {
    && broadcast in s.flights && s.flights[broadcast].todo != []
    && var f := s.flights[broadcast];
       var id := f.todo[0];
       && id in s.streams
       && t == s.(streams := s.streams[id := Write(s.streams[id], broadcast)],
                  flights := s.flights[broadcast := Flight(f.snapshot, f.todo[1..],
                                                           if s.streams[id].closed then f.missed + {id} else f.missed)])
  }

  ghost predicate ReadStep(s: System, t: System, id: nat) {
    id in s.streams && t == s.(streams := s.streams[id := Read(s.streams[id])])
  }

  ghost predicate Next(s: System, t: System) {
    || (exists account, id :: SubscribeStep(s, t, account, id))
    || (exists account, id :: UnsubscribeStep(s, t, account, id))
    || (exists account, broadcast :: LookStep(s, t, account, broadcast))
    || (exists broadcast, order :: SnapshotStep(s, t, broadcast, order))
    || (exists broadcast :: WriteStep(s, t, broadcast))
    || (exists id :: ReadStep(s, t, id))
  }

  ghost predicate Behaviour(ss: seq<System>) {
    ss != [] && Init(ss[0]) && forall i :: 0 <= i < |ss| - 1 ==> Next(ss[i], ss[i + 1])
  }

  // ---------------------------------------------------------------- the invariant

  /** No account without streams, registered streams are open, and open streams are registered once. */
  ghost predicate RegistryInv(s: System) {
    && (forall a :: a in s.registry ==> s.registry[a] != {})
    && (forall a, id :: a in s.registry && id in s.registry[a] ==> id in s.streams && !s.streams[id].closed)
    && (forall a, b :: a in s.registry && b in s.registry && a != b ==> s.registry[a] !! s.registry[b])
    && (forall id :: id in s.streams && !s.streams[id].closed ==> IsListed(s, id))
  }

  ghost predicate IsListed(s: System, id: nat) {
    exists a :: a in s.registry && id in s.registry[a]
  }

  ghost predicate QueuesInv(s: System) {
    forall id :: id in s.streams ==> Fifo(s.streams[id])
  }

  ghost predicate FlightInv(s: System, f: Flight) {
    && f.snapshot <= s.streams.Keys
    && Distinct(f.todo) && (forall id :: id in f.todo ==> id in f.snapshot)
    && f.missed <= f.snapshot
    && (forall id :: id in f.missed ==> id !in f.todo && id in s.streams && s.streams[id].closed)
  }

  ghost predicate FlightsInv(s: System) {
    forall b :: b in s.flights ==> FlightInv(s, s.flights[b])
  }

  /** The broadcast's write to this stream has happened and was accepted. */
  ghost predicate Delivered(s: System, b: nat, id: nat) {
    b in s.flights && id in s.flights[b].snapshot && id !in s.flights[b].todo && id !in s.flights[b].missed
  }

  ghost predicate DeliveryInv(s: System) {
    forall id, b :: id in s.streams ==>
      multiset(s.streams[id].accepted)[b] == if Delivered(s, b, id) then 1 else 0
  }

  /** A stream that a delivery saw is completed or still registered under the delivery's account. */
  ghost predicate SightInv(s: System) {
    forall b, id :: b in s.seen && id in s.seen[b].streams ==>
      id in s.streams && (s.streams[id].closed || id in StreamsOf(s, s.seen[b].account))
  }

  /** A stream that a delivery saw is in the snapshot of its broadcast unless it was completed. */
  ghost predicate ServedInv(s: System) {
    forall b :: b in s.flights ==>
      b in s.seen && forall id :: id in s.seen[b].streams && id in s.streams ==>
        id in s.flights[b].snapshot || s.streams[id].closed
  }

  ghost predicate Inv(s: System) {
    RegistryInv(s) && QueuesInv(s) && FlightsInv(s) && DeliveryInv(s) && SightInv(s) && ServedInv(s)
  }

  /** Nothing completed is opened again, and an open stream stays where it is registered. */
  ghost predicate KeepsStreams(s: System, t: System) {
    && s.streams.Keys <= t.streams.Keys
    && (forall id :: id in s.streams && s.streams[id].closed ==> t.streams[id].closed)
    && (forall a, id :: id in StreamsOf(s, a) && id in t.streams && !t.streams[id].closed ==> id in StreamsOf(t, a))
  }

  lemma KeepsSights(s: System, t: System)
    requires SightInv(s) && ServedInv(s) && KeepsStreams(s, t) && t.seen == s.seen
    requires t.flights.Keys == s.flights.Keys
    requires forall b :: b in s.flights ==> t.flights[b].snapshot == s.flights[b].snapshot
    ensures SightInv(t) && ServedInv(t)
  {
  }

  /** A step that writes nothing and opens nothing again leaves the broadcasts as they are. */
  lemma QuietKeepsFlights(s: System, t: System)
    requires FlightsInv(s) && DeliveryInv(s) && t.flights == s.flights && t.streams.Keys == s.streams.Keys
    requires forall id :: id in s.streams ==>
               t.streams[id].accepted == s.streams[id].accepted && (s.streams[id].closed ==> t.streams[id].closed)
    ensures FlightsInv(t) && DeliveryInv(t)
  {
    forall b | b in t.flights
      ensures FlightInv(t, t.flights[b])
    {
      assert FlightInv(s, s.flights[b]);
    }
    forall j, b | j in t.streams
      ensures multiset(t.streams[j].accepted)[b] == if Delivered(t, b, j) then 1 else 0
    {
      assert Delivered(t, b, j) <==> Delivered(s, b, j);
    }
  }

  lemma LookKeepsSights(s: System, t: System, account: nat, broadcast: nat)
    requires RegistryInv(s) && SightInv(s) && ServedInv(s) && LookStep(s, t, account, broadcast)
    ensures SightInv(t) && ServedInv(t)
  {
  }

  lemma LookKeeps(s: System, t: System, account: nat, broadcast: nat)
    requires Inv(s) && LookStep(s, t, account, broadcast)
    ensures Inv(t)
  {
    SameShapeKeepsRegistry(s, t);
    QuietKeepsFlights(s, t);
    LookKeepsSights(s, t, account, broadcast);
  }

  lemma SubscribeKeepsRegistry(s: System, t: System, account: nat, id: nat)
    requires RegistryInv(s) && SubscribeStep(s, t, account, id)
    ensures RegistryInv(t)
  {
    assert account in t.registry && id in t.registry[account];
    NewStreamIsNobodyElses(s, t, account, id);
    forall j | j in t.streams && !t.streams[j].closed
      ensures IsListed(t, j)
    {
      if j != id {
        assert IsListed(s, j);
        var a :| a in s.registry && j in s.registry[a];
        assert a in t.registry && j in t.registry[a];
      }
    }
  }

  lemma NewStreamIsNobodyElses(s: System, t: System, account: nat, id: nat)
    requires RegistryInv(s) && SubscribeStep(s, t, account, id)
    ensures forall a :: a in t.registry ==> t.registry[a] != {}
    ensures forall a, j :: a in t.registry && j in t.registry[a] ==> j in t.streams && !t.streams[j].closed
    ensures forall a, b :: a in t.registry && b in t.registry && a != b ==> t.registry[a] !! t.registry[b]
  {
    assert forall a :: a in s.registry ==> id !in s.registry[a];
  }

  lemma SubscribeKeepsFlights(s: System, t: System, account: nat, id: nat)
    requires FlightsInv(s) && DeliveryInv(s) && SubscribeStep(s, t, account, id)
    ensures FlightsInv(t) && DeliveryInv(t)
  {
    forall b | b in t.flights
      ensures FlightInv(t, t.flights[b]) && id !in t.flights[b].snapshot
    {
      assert FlightInv(s, s.flights[b]);
    }
    forall j, b | j in t.streams
      ensures multiset(t.streams[j].accepted)[b] == if Delivered(t, b, j) then 1 else 0
    {
      assert Delivered(t, b, j) <==> Delivered(s, b, j);
    }
  }

  lemma SubscribeKeeps(s: System, t: System, account: nat, id: nat)
    requires Inv(s) && SubscribeStep(s, t, account, id)
    ensures Inv(t)
  {
    SubscribeKeepsRegistry(s, t, account, id);
    SubscribeKeepsFlights(s, t, account, id);
    KeepsSights(s, t);
  }

  lemma UnsubscribeKeepsRegistry(s: System, t: System, account: nat, id: nat)
    requires RegistryInv(s) && UnsubscribeStep(s, t, account, id)
    ensures RegistryInv(t)
  {
    if id in StreamsOf(s, account) {
      forall j | j in t.streams && !t.streams[j].closed
        ensures IsListed(t, j)
      {
        assert j != id && IsListed(s, j);
        var a :| a in s.registry && j in s.registry[a];
        assert a == account ==> j in s.registry[account] - {id};
        assert a in t.registry && j in t.registry[a];
      }
    }
  }

  lemma UnsubscribeKeeps(s: System, t: System, account: nat, id: nat)
    requires Inv(s) && UnsubscribeStep(s, t, account, id)
    ensures Inv(t)
  {
    UnsubscribeKeepsRegistry(s, t, account, id);
    UnsubscribeKeepsFlights(s, t, account, id);
    KeepsSights(s, t);
  }

  lemma UnsubscribeKeepsFlights(s: System, t: System, account: nat, id: nat)
    requires QueuesInv(s) && FlightsInv(s) && DeliveryInv(s) && UnsubscribeStep(s, t, account, id)
    ensures QueuesInv(t) && FlightsInv(t) && DeliveryInv(t) && KeepsStreams(s, t)
  {
    QuietKeepsFlights(s, t);
  }

  lemma SnapshotKeeps(s: System, t: System, broadcast: nat, order: seq<nat>)
    requires Inv(s) && SnapshotStep(s, t, broadcast, order)
    ensures Inv(t)
  {
    SnapshotKeepsRegistry(s, t);
    SnapshotKeepsFlights(s, t, broadcast, order);
    SnapshotKeepsDelivery(s, t, broadcast, order);
  }

  lemma SnapshotKeepsRegistry(s: System, t: System)
    requires RegistryInv(s) && t == s.(flights := t.flights)
    ensures RegistryInv(t)
  {
    assert forall j :: IsListed(s, j) ==> IsListed(t, j);
  }

  lemma SnapshotKeepsFlights(s: System, t: System, broadcast: nat, order: seq<nat>)
    requires RegistryInv(s) && FlightsInv(s) && SnapshotStep(s, t, broadcast, order)
    ensures FlightsInv(t)
  {
    assert FlightInv(t, t.flights[broadcast]);
    forall b | b in t.flights && b != broadcast
      ensures FlightInv(t, t.flights[b])
    {
      assert FlightInv(s, s.flights[b]);
    }
  }

  lemma SnapshotKeepsDelivery(s: System, t: System, broadcast: nat, order: seq<nat>)
    requires DeliveryInv(s) && SnapshotStep(s, t, broadcast, order)
    ensures DeliveryInv(t)
  {
    forall j, b | j in t.streams
      ensures multiset(t.streams[j].accepted)[b] == if Delivered(t, b, j) then 1 else 0
    {
      assert Delivered(t, b, j) <==> Delivered(s, b, j);
    }
  }

  lemma SameShapeKeepsRegistry(s: System, t: System)
    requires RegistryInv(s) && t.registry == s.registry && t.streams.Keys == s.streams.Keys
    requires forall id :: id in s.streams ==> t.streams[id].closed == s.streams[id].closed
    ensures RegistryInv(t)
  {
    assert forall j :: IsListed(s, j) ==> IsListed(t, j);
  }

  lemma WriteKeepsFlights(s: System, t: System, broadcast: nat)
    requires Inv(s) && WriteStep(s, t, broadcast)
    ensures FlightsInv(t)
  {
    forall b | b in t.flights
      ensures FlightInv(t, t.flights[b])
    {
      assert FlightInv(s, s.flights[b]);
      if b == broadcast {
        WriteKeepsItsFlight(s, t, broadcast);
      }
    }
  }

  lemma WriteKeepsItsFlight(s: System, t: System, broadcast: nat)
    requires WriteStep(s, t, broadcast) && FlightInv(s, s.flights[broadcast])
    ensures FlightInv(t, t.flights[broadcast])
  {
    var f, g := s.flights[broadcast], t.flights[broadcast];
    assert f.todo == [f.todo[0]] + g.todo;
    assert f.todo[0] !in g.todo && forall j :: j in g.todo ==> j in f.todo;
  }

  lemma WriteKeepsDelivery(s: System, t: System, broadcast: nat)
    requires Inv(s) && WriteStep(s, t, broadcast)
    ensures DeliveryInv(t)
  {
    var f, g := s.flights[broadcast], t.flights[broadcast];
    var id := f.todo[0];
    assert FlightInv(s, f);
    assert f.todo == [id] + g.todo;
    assert id !in g.todo;
    forall j, b | j in t.streams
      ensures multiset(t.streams[j].accepted)[b] == if Delivered(t, b, j) then 1 else 0
    {
      if b == broadcast && j == id {
        assert !Delivered(s, b, j);
      } else {
        assert Delivered(t, b, j) <==> Delivered(s, b, j);
      }
    }
  }

  lemma WriteKeepsSights(s: System, t: System, broadcast: nat)
    requires SightInv(s) && ServedInv(s) && WriteStep(s, t, broadcast)
    ensures SightInv(t) && ServedInv(t)
  {
    KeepsSights(s, t);
  }

  lemma WriteKeeps(s: System, t: System, broadcast: nat)
    requires Inv(s) && WriteStep(s, t, broadcast)
    ensures Inv(t)
  {
    SameShapeKeepsRegistry(s, t);
    OperationsKeepFifo(s.streams[s.flights[broadcast].todo[0]], broadcast);
    WriteKeepsFlights(s, t, broadcast);
    WriteKeepsDelivery(s, t, broadcast);
    WriteKeepsSights(s, t, broadcast);
  }

  lemma ReadKeeps(s: System, t: System, id: nat)
    requires Inv(s) && ReadStep(s, t, id)
    ensures Inv(t)
  {
    SameShapeKeepsRegistry(s, t);
    QuietKeepsFlights(s, t);
    KeepsSights(s, t);
    OperationsKeepFifo(s.streams[id], 0);
  }

  lemma NextKeeps(s: System, t: System)
    requires Inv(s) && Next(s, t)
    ensures Inv(t)
  {
    if account, id :| SubscribeStep(s, t, account, id) {
      SubscribeKeeps(s, t, account, id);
    } else if account, id :| UnsubscribeStep(s, t, account, id) {
      UnsubscribeKeeps(s, t, account, id);
    } else if account, broadcast :| LookStep(s, t, account, broadcast) {
      LookKeeps(s, t, account, broadcast);
    } else if broadcast, order :| SnapshotStep(s, t, broadcast, order) {
      SnapshotKeeps(s, t, broadcast, order);
    } else if broadcast :| WriteStep(s, t, broadcast) {
      WriteKeeps(s, t, broadcast);
    } else {
      var id :| ReadStep(s, t, id);
      ReadKeeps(s, t, id);
    }
  }

  lemma {:induction false} InvariantHolds(ss: seq<System>, i: nat)
    requires Behaviour(ss) && i < |ss|
    ensures Inv(ss[i])
  {
    if i > 0 {
      InvariantHolds(ss, i - 1);
      NextKeeps(ss[i - 1], ss[i]);
    }
  }

  /**
    In every interleaving: an open stream is registered under exactly one account and a closed one
    under none, no account entry is empty, and every stream is first in, first out.
  */
  lemma SafeInAllInterleavings(ss: seq<System>, i: nat)
    requires Behaviour(ss) && i < |ss|
    ensures var s := ss[i];
            && (forall a :: a in s.registry ==> s.registry[a] != {})
            && (forall a, id :: a in s.registry && id in s.registry[a] ==> id in s.streams && !s.streams[id].closed)
            && (forall a, b :: a in s.registry && b in s.registry && a != b ==> s.registry[a] !! s.registry[b])
            && (forall id :: id in s.streams ==> Fifo(s.streams[id]) && (s.streams[id].closed <==> !IsListed(s, id)))
  {
    InvariantHolds(ss, i);
  }

  /**
    In every interleaving a stream accepts a broadcast at most once, and only from a snapshot it is
    in; a finished broadcast was accepted exactly once by each stream of its snapshot unless that
    stream had been completed before its turn.
  */
  lemma BroadcastDelivery(ss: seq<System>, i: nat, b: nat, id: nat)
    requires Behaviour(ss) && i < |ss| && id in ss[i].streams
    ensures var s := ss[i];
            var times := multiset(s.streams[id].accepted)[b];
            && times <= 1
            && (times == 1 ==> b in s.flights && id in s.flights[b].snapshot)
            && (b in s.flights && s.flights[b].todo == [] && id in s.flights[b].snapshot ==>
                  times == if id in s.flights[b].missed then 0 else 1)
            && (b in s.flights && id in s.flights[b].missed ==> s.streams[id].closed)
  {
    InvariantHolds(ss, i);
    if b in ss[i].flights {
      assert FlightInv(ss[i], ss[i].flights[b]);
    }
  }

  /**
    A device left out of the websocket packet gets the message on its stream: every stream that a
    delivery saw is in the snapshot its broadcast takes later, and when the broadcast is through it
    has accepted the message exactly once, unless it was completed in between.
  */
  lemma SeenStreamsAreServed(ss: seq<System>, i: nat, b: nat, id: nat)
    requires Behaviour(ss) && i < |ss| && b in ss[i].flights
    ensures b in ss[i].seen && (id in ss[i].seen[b].streams ==> id in ss[i].streams)
    ensures var s := ss[i];
            id in s.seen[b].streams && !s.streams[id].closed ==>
              && id in s.flights[b].snapshot
              && (s.flights[b].todo == [] ==> multiset(s.streams[id].accepted)[b] == 1)
  {
    InvariantHolds(ss, i);
    assert FlightInv(ss[i], ss[i].flights[b]);
    assert id in ss[i].streams ==> (Delivered(ss[i], b, id) ==> multiset(ss[i].streams[id].accepted)[b] == 1);
  }

  /** What readers of a stream have taken and what is queued is what it accepted, in order. */
  lemma TakenThenQueued(ss: seq<System>, i: nat, id: nat)
    requires Behaviour(ss) && i < |ss| && id in ss[i].streams
    ensures ss[i].streams[id].accepted == ss[i].streams[id].taken + ss[i].streams[id].items
  {
    InvariantHolds(ss, i);
  }
}
