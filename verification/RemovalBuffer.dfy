/**
  The removal buffer: subscriptions whose token proved invalid are queued, drained by a flush and
  deleted; what a failing flush had drained is queued again.
*/
module RemovalBuffer {
  import opened Basics
  import opened Database
  import opened Subscriptions

  /** One report; the serial number tells two reports of the same subscription apart. */
  datatype RemovalRequest = RemovalRequest(serial: nat, subId: nat)

  class FlushBuffer {
    var items: seq<RemovalRequest>

    constructor ()
      ensures items == []
    {
      items := [];
    }

    method Enqueue(item: RemovalRequest)
      modifies this
      ensures items == old(items) + [item]
    {
      items := items + [item];
    }

    /** The first critical section of a flush: takes everything there is. */
    method Drain() returns (working: seq<RemovalRequest>)
      modifies this
      ensures working == old(items) && items == []
    {
      working := items;
      if |items| != 0 {
        items := [];
      }
    }

    /** The second one, after a failing handler: what was drained goes behind what came meanwhile. */
    method Requeue(working: seq<RemovalRequest>)
      modifies this
      ensures items == old(items) + working
    {
      items := items + working;
    }

    method GetPendingCount() returns (count: nat)
      ensures count == |items|
    {
      count := |items|;
    }
  }

  function SubIds(items: seq<RemovalRequest>): set<nat> {
    set i | 0 <= i < |items| :: items[i].subId
  }

  class Flusher {
    const buffer: FlushBuffer
    const table: SubscriptionTable

    constructor (buffer: FlushBuffer, table: SubscriptionTable)
      ensures this.buffer == buffer && this.table == table
    {
      this.buffer, this.table := buffer, table;
    }

    /** The ids of the drained requests, each once. */
    method IdsToDelete(items: seq<RemovalRequest>) returns (ids: seq<nat>)
      ensures Distinct(ids) && (set id | id in ids) == SubIds(items)
    {
      var seen: set<nat> := {};
      ids := [];
      var i := 0;
      while i < |items|
        invariant 0 <= i <= |items|
        invariant seen == SubIds(items[..i]) && Distinct(ids)
        invariant forall id :: id in ids <==> id in seen
      {
        SubIdsAppend(items[..i], items[i]);
        assert items[..i + 1] == items[..i] + [items[i]];
        if items[i].subId !in seen {
          seen := seen + {items[i].subId};
          ids := ids + [items[i].subId];
        }
        i := i + 1;
      }
      assert items[..|items|] == items;
    }

    /** One uninterrupted flush; a deletion that reports an error may have happened all the same. */
    method FlushRemovalBuffer(w: Write) returns (ok: bool)
      modifies buffer, table
      ensures ok == (w == Stored || old(buffer.items) == [])
      ensures table.rows == if old(buffer.items) == [] || w == Lost then old(table.rows)
                            else Spared(old(table.rows), WithIds(SubIds(old(buffer.items))))
      ensures w != Lost ==>
                forall row :: row in table.rows
                  <==> row in old(table.rows) && forall i :: 0 <= i < |old(buffer.items)| ==>
                         old(buffer.items)[i].subId != row.id
      ensures buffer.items == if ok then [] else old(buffer.items)
    {
      var working := buffer.Drain();
      if |working| == 0 {
        return true;
      }
      var ids := IdsToDelete(working);
      var victims := set id | id in ids;
      assert victims == SubIds(working);
      var count;
      ok, count := table.DeleteSubscriptions(WithIds(victims), w);
      if !ok {
        buffer.Requeue(working);
      }
    }
  }

  lemma SubIdsAppend(items: seq<RemovalRequest>, item: RemovalRequest)
    ensures SubIds(items + [item]) == SubIds(items) + {item.subId}
  {
    var all := items + [item];
    assert all[|items|] == item;
    forall id
      ensures id in SubIds(all) <==> id in SubIds(items) + {item.subId}
    {
      if id in SubIds(items) {
        var i :| 0 <= i < |items| && items[i].subId == id;
        assert all[i].subId == id;
      }
    }
  }

  // ---------------------------------------------------------------- interleaved flushes

  /**
    flights[f] is what flush f has drained and not yet settled; rows are the stored subscriptions,
    purged those that flushes deleted.
  */
  datatype State = State(
    pending: seq<RemovalRequest>,
    flights: seq<seq<RemovalRequest>>,
    handled: multiset<RemovalRequest>,
    enqueued: multiset<RemovalRequest>,
    rows: set<nat>,
    inserted: set<nat>,
    purged: set<nat>)

  ghost predicate Init(s: State) {
    s == State([], [], multiset{}, multiset{}, {}, {}, {})
  }

  /** Every report is a new request. */
  ghost predicate EnqueueStep(s: State, t: State, r: RemovalRequest) {
    r !in s.enqueued && t == s.(pending := s.pending + [r], enqueued := s.enqueued + multiset{r})
  }

  ghost predicate DrainStep(s: State, t: State) {
    s.pending != [] && t == s.(pending := [], flights := s.flights + [s.pending])
  }

  ghost predicate SucceedStep(s: State, t: State, f: nat) {
    && f < |s.flights| && s.flights[f] != []
    && t == s.(flights := s.flights[f := []],
               handled := s.handled + multiset(s.flights[f]),
               rows := s.rows - SubIds(s.flights[f]),
               purged := s.purged + s.rows * SubIds(s.flights[f]))
  }

  /** A failing handler may have deleted its rows all the same. */
  ghost predicate FailStep(s: State, t: State, f: nat, deleted: bool) {
    && f < |s.flights| && s.flights[f] != []
    && t == s.(flights := s.flights[f := []],
               pending := s.pending + s.flights[f],
               rows := if deleted then s.rows - SubIds(s.flights[f]) else s.rows,
               purged := if deleted then s.purged + s.rows * SubIds(s.flights[f]) else s.purged)
  }

  /** Rows also go when a device unsubscribes. */
  ghost predicate UnsubscribeStep(s: State, t: State, id: nat) {
    t == s.(rows := s.rows - {id})
  }

  /** New rows get new ids, which nobody can have reported yet. */
  ghost predicate InsertStep(s: State, t: State, id: nat) {
    && id !in s.inserted && (forall r :: r in s.enqueued ==> r.subId != id)
    && t == s.(rows := s.rows + {id}, inserted := s.inserted + {id})
  }

  ghost predicate Next(s: State, t: State) {
    || (exists r :: EnqueueStep(s, t, r))
    || DrainStep(s, t)
    || (exists f :: SucceedStep(s, t, f))
    || (exists f, deleted :: FailStep(s, t, f, deleted))
    || (exists id :: InsertStep(s, t, id))
    || (exists id :: UnsubscribeStep(s, t, id))
  }

  ghost predicate Behaviour(ss: seq<State>) {
    ss != [] && Init(ss[0]) && forall i :: 0 <= i < |ss| - 1 ==> Next(ss[i], ss[i + 1])
  }

  function Total(flights: seq<seq<RemovalRequest>>): multiset<RemovalRequest> {
    if flights == [] then multiset{}
    else Total(flights[..|flights| - 1]) + multiset(flights[|flights| - 1])
  }

  lemma {:induction false} TotalWithout(flights: seq<seq<RemovalRequest>>, f: nat)
    requires f < |flights|
    ensures Total(flights) == Total(flights[f := []]) + multiset(flights[f])
  {
    var n := |flights| - 1;
    if f < n {
      TotalWithout(flights[..n], f);
      assert flights[f := []][..n] == flights[..n][f := []];
    } else {
      assert flights[f := []][..n] == flights[..n];
    }
  }

  /** Requests still to be handled. */
  function Held(s: State): multiset<RemovalRequest> {
    multiset(s.pending) + Total(s.flights)
  }

  ghost predicate Conserved(s: State) {
    && s.enqueued == Held(s) + s.handled
    && (forall r :: s.enqueued[r] <= 1)
  }

  ghost predicate IsReported(s: State, id: nat) {
    exists r :: r in s.enqueued && r.subId == id
  }

  /** A handled request's row is gone, and flushes only delete rows that a request names. */
  ghost predicate OnlyReportedDeleted(s: State) {
    && s.rows <= s.inserted
    && (forall r :: r in s.handled ==> r.subId !in s.rows)
    && (forall id :: id in s.purged ==> IsReported(s, id))
  }

  lemma FlightIsHeld(s: State, f: nat, r: RemovalRequest)
    requires f < |s.flights| && r in s.flights[f]
    ensures r in Held(s)
  {
    TotalWithout(s.flights, f);
    assert r in multiset(s.flights[f]);
  }

  ghost predicate Inv(s: State) {
    Conserved(s) && OnlyReportedDeleted(s)
  }

  lemma EnqueueKeeps(s: State, t: State, r: RemovalRequest)
    requires Inv(s) && EnqueueStep(s, t, r)
    ensures Inv(t)
  {
    assert multiset(t.pending) == multiset(s.pending) + multiset{r};
    forall id | id in t.purged
      ensures IsReported(t, id)
    {
      var q :| q in s.enqueued && q.subId == id;
      assert q in t.enqueued;
    }
  }

  lemma DrainKeeps(s: State, t: State)
    requires Inv(s) && DrainStep(s, t)
    ensures Inv(t)
  {
    assert t.flights[..|t.flights| - 1] == s.flights;
    assert forall id :: IsReported(s, id) ==> IsReported(t, id);
  }

  lemma FlightNames(s: State, f: nat, id: nat)
    requires Conserved(s) && f < |s.flights| && id in SubIds(s.flights[f])
    ensures IsReported(s, id)
  {
    var i :| 0 <= i < |s.flights[f]| && s.flights[f][i].subId == id;
    FlightIsHeld(s, f, s.flights[f][i]);
  }

  /** What a flush purges was reported. */
  lemma PurgeIsReported(s: State, t: State, f: nat)
    requires Inv(s) && f < |s.flights| && t.enqueued == s.enqueued
    requires t.purged <= s.purged + s.rows * SubIds(s.flights[f])
    ensures forall id :: id in t.purged ==> IsReported(t, id)
  {
    forall id | id in t.purged
      ensures IsReported(t, id)
    {
      if id !in s.purged {
        FlightNames(s, f, id);
      }
      assert IsReported(s, id);
    }
  }

  lemma SucceedKeeps(s: State, t: State, f: nat)
    requires Inv(s) && SucceedStep(s, t, f)
    ensures Inv(t)
  {
    TotalWithout(s.flights, f);
    PurgeIsReported(s, t, f);
    forall r | r in t.handled
      ensures r.subId !in t.rows
    {
      if r !in s.handled {
        assert r in multiset(s.flights[f]);
        var i :| 0 <= i < |s.flights[f]| && s.flights[f][i] == r;
        assert r.subId in SubIds(s.flights[f]);
      }
    }
  }

  lemma FailKeeps(s: State, t: State, f: nat, deleted: bool)
    requires Inv(s) && FailStep(s, t, f, deleted)
    ensures Inv(t)
  {
    TotalWithout(s.flights, f);
    PurgeIsReported(s, t, f);
    assert multiset(t.pending) == multiset(s.pending) + multiset(s.flights[f]);
  }

  lemma InsertKeeps(s: State, t: State, id: nat)
    requires Inv(s) && InsertStep(s, t, id)
    ensures Inv(t)
  {
    assert forall i :: IsReported(s, i) ==> IsReported(t, i);
    forall r | r in t.handled
      ensures r.subId !in t.rows
    {
      assert r in s.enqueued;
    }
  }

  lemma UnsubscribeKeeps(s: State, t: State, id: nat)
    requires Inv(s) && UnsubscribeStep(s, t, id)
    ensures Inv(t)
  {
    assert forall i :: IsReported(s, i) ==> IsReported(t, i);
  }

  lemma NextKeeps(s: State, t: State)
    requires Inv(s) && Next(s, t)
    ensures Inv(t)
  {
    if r :| EnqueueStep(s, t, r) {
      EnqueueKeeps(s, t, r);
    } else if DrainStep(s, t) {
      DrainKeeps(s, t);
    } else if f :| SucceedStep(s, t, f) {
      SucceedKeeps(s, t, f);
    } else if f, deleted :| FailStep(s, t, f, deleted) {
      FailKeeps(s, t, f, deleted);
    } else if id :| InsertStep(s, t, id) {
      InsertKeeps(s, t, id);
    } else {
      var id :| UnsubscribeStep(s, t, id);
      UnsubscribeKeeps(s, t, id);
    }
  }

  lemma {:induction false} InvariantHolds(ss: seq<State>, i: nat)
    requires Behaviour(ss) && i < |ss|
    ensures Inv(ss[i])
  {
    if i > 0 {
      InvariantHolds(ss, i - 1);
      NextKeeps(ss[i - 1], ss[i]);
    }
  }

  /**
    In every interleaving of reports, flushes and failing handlers: no request is lost or
    duplicated, two flushes never hold the same request nor one that is pending, every reported id is
    still held for retry or its row is gone, and flushes delete no row that was not reported.
  */
  lemma RemovalsAreConserved(ss: seq<State>, i: nat)
    requires Behaviour(ss) && i < |ss|
    ensures var s := ss[i];
            && s.enqueued == Held(s) + s.handled
            && (forall f, g :: 0 <= f < g < |s.flights| ==>
                  forall r :: r in s.flights[f] ==> r !in s.flights[g])
            && (forall f :: 0 <= f < |s.flights| ==> forall r :: r in s.flights[f] ==> r !in s.pending)
            && (forall r :: r in s.enqueued ==> r in Held(s) || r.subId !in s.rows)
            && (forall id :: id in s.purged ==> IsReported(s, id))
  {
    InvariantHolds(ss, i);
    var s := ss[i];
    forall f, g, r | 0 <= f < g < |s.flights| && r in s.flights[f]
      ensures r !in s.flights[g]
    {
      assert s.enqueued[r] <= 1;
      TwoFlights(s.flights, f, g, r);
    }
    forall f, r | 0 <= f < |s.flights| && r in s.flights[f]
      ensures r !in s.pending
    {
      assert s.enqueued[r] <= 1;
      TotalWithout(s.flights, f);
      assert r in multiset(s.flights[f]);
      assert multiset(s.pending)[r] == 0;
    }
  }

  lemma TwoFlights(flights: seq<seq<RemovalRequest>>, f: nat, g: nat, r: RemovalRequest)
    requires f < g < |flights| && r in flights[f] && Total(flights)[r] <= 1
    ensures r !in flights[g]
  {
    TotalWithout(flights, f);
    TotalWithout(flights[f := []], g);
    assert r in multiset(flights[f]);
    assert multiset(flights[g])[r] == 0;
  }
}
