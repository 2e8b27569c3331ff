/**
  The in-process SOP streams: a queue that can be completed, and the registry of live streams by
  account.  Methods are the code under one lock; StreamInterleaving runs them concurrently.
*/
module SopStreams {
  import opened Basics
  import opened Devices

  /** A message is one broadcast of one notification. */
  datatype Queue = Queue(items: seq<nat>, closed: bool, accepted: seq<nat>, taken: seq<nat>)

  const EMPTY_QUEUE := Queue([], false, [], [])

  function Write(q: Queue, m: nat): Queue {
    if q.closed then q else Queue(q.items + [m], q.closed, q.accepted + [m], q.taken)
  }

  function Read(q: Queue): Queue {
    if q.items == [] then q else Queue(q.items[1..], q.closed, q.accepted, q.taken + [q.items[0]])
  }

  function Complete(q: Queue): Queue {
    q.(closed := true)
  }

  /** First in, first out: what was taken and then what is queued is what was accepted. */
  ghost predicate Fifo(q: Queue) {
    q.accepted == q.taken + q.items
  }

  lemma OperationsKeepFifo(q: Queue, m: nat)
    requires Fifo(q)
    ensures Fifo(Write(q, m)) && Fifo(Read(q)) && Fifo(Complete(q))
  {
    if q.items != [] {
      assert q.items == [q.items[0]] + q.items[1..];
    }
  }

  class SopStream {
    var items: seq<nat>
    var closed: bool
    ghost var accepted: seq<nat>
    ghost var taken: seq<nat>

    ghost function State(): Queue
      reads this
    {
      Queue(items, closed, accepted, taken)
    }

    constructor ()
      ensures State() == EMPTY_QUEUE
    {
      items, closed, accepted, taken := [], false, [], [];
    }

    method TryWrite(m: nat) returns (ok: bool)
      modifies this
      ensures State() == Write(old(State()), m) && ok == !old(closed)
      ensures items == (if ok then old(items) + [m] else old(items)) && closed == old(closed)
    {
      if closed {
        return false;
      }
      items := items + [m];
      accepted := accepted + [m];
      ok := true;
    }

    method TryRead() returns (m: Option<nat>)
      modifies this
      ensures State() == Read(old(State()))
      ensures items == (if old(items) == [] then [] else old(items)[1..]) && closed == old(closed)
      ensures m == if old(items) == [] then None else Some(old(items)[0])
    {
      if |items| == 0 {
        return None;
      }
      m := Some(items[0]);
      taken := taken + [items[0]];
      items := items[1..];
    }

    method Close()
      modifies this
      ensures State() == Complete(old(State())) && closed && items == old(items)
    {
      if !closed {
        closed := true;
      }
    }
  }

  datatype Entry = Entry(deviceId: string, stream: SopStream)

  type Registry = map<nat, map<nat, Entry>>

  function EntriesOf(r: Registry, account: nat): map<nat, Entry> {
    if account in r then r[account] else map[]
  }

  predicate IsRegistered(r: Registry, account: nat, id: nat) {
    account in r && id in r[account]
  }

  function Registered(r: Registry, account: nat, id: nat, e: Entry): Registry {
    r[account := EntriesOf(r, account)[id := e]]
  }

  /** The account goes with its last stream. */
  function Unregistered(r: Registry, account: nat, id: nat): Registry
    requires IsRegistered(r, account, id)
  {
    var entries := r[account] - {id};
    if entries.Keys == {} then r - {account} else r[account := entries]
  }

  ghost predicate NoEmptyAccount(r: Registry) {
    forall a :: a in r ==> r[a].Keys != {}
  }

  /** No stream object is registered under two keys. */
  ghost predicate Unshared(r: Registry) {
    forall a, s, b, t :: IsRegistered(r, a, s) && IsRegistered(r, b, t) && (a != b || s != t) ==>
      r[a][s].stream != r[b][t].stream
  }

  ghost function Objects(r: Registry): set<SopStream> {
    set a, s | a in r && s in r[a] :: r[a][s].stream
  }

  lemma RegisteredIs(r: Registry, account: nat, id: nat, e: Entry)
    requires !IsRegistered(r, account, id)
    ensures forall a, s :: IsRegistered(Registered(r, account, id, e), a, s)
                           <==> IsRegistered(r, a, s) || (a == account && s == id)
    ensures forall a, s :: IsRegistered(r, a, s) ==> Registered(r, account, id, e)[a][s] == r[a][s]
    ensures Registered(r, account, id, e)[account][id] == e
    ensures NoEmptyAccount(r) ==> NoEmptyAccount(Registered(r, account, id, e))
  {
    assert id in Registered(r, account, id, e)[account].Keys;
  }

  lemma UnregisteredIs(r: Registry, account: nat, id: nat)
    requires IsRegistered(r, account, id)
    ensures forall a, s :: IsRegistered(Unregistered(r, account, id), a, s)
                           <==> IsRegistered(r, a, s) && !(a == account && s == id)
    ensures forall a, s :: IsRegistered(Unregistered(r, account, id), a, s) ==>
              Unregistered(r, account, id)[a][s] == r[a][s]
    ensures NoEmptyAccount(r) ==> NoEmptyAccount(Unregistered(r, account, id))
  {
    var entries := r[account] - {id};
    assert forall s :: s in entries <==> s in r[account] && s != id;
    if entries.Keys == {} {
      assert forall s :: s in r[account] ==> s == id || s in entries.Keys;
    }
  }

  lemma RegisteredUnshared(r: Registry, account: nat, id: nat, e: Entry)
    requires !IsRegistered(r, account, id) && Unshared(r) && e.stream !in Objects(r)
    ensures Unshared(Registered(r, account, id, e))
    ensures forall s :: s in Objects(Registered(r, account, id, e)) ==> s in Objects(r) || s == e.stream
  {
    RegisteredIs(r, account, id, e);
  }

  function DevicesOf(entries: map<nat, Entry>, ids: set<nat>): set<string> {
    set id | id in ids && id in entries :: NormalizeSopDeviceId(entries[id].deviceId)
  }

  lemma DevicesGrow(entries: map<nat, Entry>, ids: set<nat>, id: nat)
    requires id in entries
    ensures DevicesOf(entries, ids + {id}) == DevicesOf(entries, ids) + {NormalizeSopDeviceId(entries[id].deviceId)}
  {
  }

  lemma UnregisteredUnshared(r: Registry, account: nat, id: nat)
    requires IsRegistered(r, account, id) && Unshared(r)
    ensures Unshared(Unregistered(r, account, id))
    ensures r[account][id].stream !in Objects(Unregistered(r, account, id))
    ensures Objects(Unregistered(r, account, id)) <= Objects(r)
  {
    UnregisteredIs(r, account, id);
  }

  ghost predicate WellFormed(r: Registry) {
    NoEmptyAccount(r) && Unshared(r)
  }

  lemma SubscribeKeeps(r: Registry, account: nat, id: nat, e: Entry)
    requires !IsRegistered(r, account, id) && WellFormed(r) && e.stream !in Objects(r)
    ensures WellFormed(Registered(r, account, id, e))
    ensures Objects(Registered(r, account, id, e)) <= Objects(r) + {e.stream}
  {
    assert NoEmptyAccount(Registered(r, account, id, e)) by { RegisteredIs(r, account, id, e); }
    RegisteredUnshared(r, account, id, e);
  }

  lemma UnsubscribeKeeps(r: Registry, account: nat, id: nat)
    requires IsRegistered(r, account, id) && WellFormed(r)
    ensures WellFormed(Unregistered(r, account, id))
    ensures Objects(Unregistered(r, account, id)) <= Objects(r) - {r[account][id].stream}
  {
    assert NoEmptyAccount(Unregistered(r, account, id)) by { UnregisteredIs(r, account, id); }
    UnregisteredUnshared(r, account, id);
  }

  class StreamRegistry {
    var streams: Registry

    /** Registered streams are open and nobody else's, and no account is kept without streams. */
    ghost predicate Valid()
      reads this, Objects(streams)
    {
      && WellFormed(streams)
      && forall s :: s in Objects(streams) ==> !s.closed
    }

    constructor ()
      ensures Valid() && streams == map[]
    {
      streams := map[];
    }

    method Subscribe(account: nat, deviceId: string, streamId: nat) returns (stream: SopStream)
      requires Valid() && !IsRegistered(streams, account, streamId)
      modifies this
      ensures Valid() && fresh(stream) && stream.State() == EMPTY_QUEUE
      ensures streams == Registered(old(streams), account, streamId, Entry(deviceId, stream))
    {
      ghost var was := streams;
      stream := new SopStream();
      var entry := Entry(deviceId, stream);
      SubscribeKeeps(streams, account, streamId, entry);
      Enter(account, streamId, entry);
      forall s | s in Objects(streams)
        ensures !s.closed
      {
        assert s == stream || s in Objects(was);
      }
    }

    method Enter(account: nat, streamId: nat, entry: Entry)
      modifies this
      ensures streams == Registered(old(streams), account, streamId, entry)
    {
      var accountStreams: map<nat, Entry> := map[];
      if account in streams {
        accountStreams := streams[account];
      }
      streams := streams[account := accountStreams[streamId := entry]];
    }

    /** Removes and completes the stream; unknown accounts and streams are ignored. */
    method Unsubscribe(account: nat, streamId: nat)
      requires Valid()
      modifies this, if IsRegistered(streams, account, streamId) then {streams[account][streamId].stream} else {}
      ensures Valid()
      ensures !IsRegistered(old(streams), account, streamId) ==> streams == old(streams)
      ensures IsRegistered(old(streams), account, streamId) ==>
                var stream := old(streams)[account][streamId].stream;
                && streams == Unregistered(old(streams), account, streamId)
                && stream.State() == Complete(old(stream.State())) && stream !in Objects(streams)
    {
      if account !in streams {
        return;
      }
      if streamId in streams[account] {
        UnsubscribeKeeps(streams, account, streamId);
        var stream := streams[account][streamId].stream;
        Forget(account, streamId);
        stream.Close();
      }
    }

    method Forget(account: nat, streamId: nat)
      requires IsRegistered(streams, account, streamId)
      modifies this
      ensures streams == Unregistered(old(streams), account, streamId)
    {
      var accountStreams := streams[account] - {streamId};
      if |accountStreams.Keys| == 0 {
        streams := streams - {account};
      } else {
        streams := streams[account := accountStreams];
      }
    }

    /** The streams of an account at one moment, in some order. */
    method Snapshot(account: nat) returns (snapshot: seq<SopStream>)
      requires Valid()
      ensures Distinct(snapshot)
      ensures forall s :: s in snapshot ==> s in Objects(streams)
      ensures forall s :: s in snapshot
                <==> exists id :: IsRegistered(streams, account, id) && streams[account][id].stream == s
    {
      snapshot := [];
      if account !in streams {
        return;
      }
      var entries := streams[account];
      var rest := entries.Keys;
      while rest != {}
        invariant rest <= entries.Keys && Distinct(snapshot)
        invariant forall s :: s in snapshot <==> exists id :: id in entries && id !in rest && entries[id].stream == s
        decreases rest
      {
        var id :| id in rest;
        assert entries[id].stream !in snapshot;
        snapshot := snapshot + [entries[id].stream];
        rest := rest - {id};
      }
    }

    /** Uninterrupted, a broadcast reaches every stream of the account once and no other stream. */
    method Broadcast(account: nat, m: nat)
      requires Valid()
      modifies Objects(streams)
      ensures Valid() && streams == old(streams)
      ensures forall a, id :: IsRegistered(streams, a, id) ==>
                var s := streams[a][id].stream;
                s.State() == if a == account then Write(old(s.State()), m) else old(s.State())
    {
      var snapshot := Snapshot(account);
      WriteAll(snapshot, m);
      forall a, id | IsRegistered(streams, a, id)
        ensures streams[a][id].stream in snapshot <==> a == account
      {
        assert streams[a][id].stream in snapshot ==>
            exists i :: IsRegistered(streams, account, i) && streams[account][i].stream == streams[a][id].stream;
      }
    }

    static method WriteAll(snapshot: seq<SopStream>, m: nat)
      requires Distinct(snapshot)
      modifies set s | s in snapshot
      ensures forall s :: s in snapshot ==> s.State() == Write(old(s.State()), m)
    {
      var i := 0;
      while i < |snapshot|
        invariant 0 <= i <= |snapshot|
        invariant forall j :: 0 <= j < |snapshot| ==>
                    snapshot[j].State()
                    == if j < i then Write(old(snapshot[j].State()), m) else old(snapshot[j].State())
      {
        var accepted := snapshot[i].TryWrite(m);
        i := i + 1;
      }
    }

    /** The normalised devices that have a live stream. */
    method ConnectedDeviceIds(account: nat) returns (ids: set<string>)
      ensures forall device :: device in ids <==>
                exists id :: IsRegistered(streams, account, id)
                             && NormalizeSopDeviceId(streams[account][id].deviceId) == device
    {
      ids := {};
      var entries := EntriesOf(streams, account);
      var rest := entries.Keys;
      while rest != {}
        invariant rest <= entries.Keys && ids == DevicesOf(entries, entries.Keys - rest)
        decreases rest
      {
        var id :| id in rest;
        DevicesGrow(entries, entries.Keys - rest, id);
        assert entries.Keys - (rest - {id}) == (entries.Keys - rest) + {id};
        ids := ids + {NormalizeSopDeviceId(entries[id].deviceId)};
        rest := rest - {id};
      }
      assert entries.Keys - {} == entries.Keys;
      assert forall id :: IsRegistered(streams, account, id) <==> id in entries;
    }
  }
}
