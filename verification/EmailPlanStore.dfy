/**
  The plan tables and the queries the plan service runs on them.  A plan's recipients are kept in
  (created_at, id) order; every write can be stored, lost, or stored with an error reported.
*/
module EmailPlanStore {
  import opened Basics
  import opened Database
  import opened UtcClock
  import opened EmailPlanModel
  import opened EmailPlanSafety

  datatype Counts = Counts(total: nat, pending: nat, sent: nat, skipped: nat, failed: nat)

  /** Rows after one row was rewritten by its identifier. */
  function Rewritten(rows: seq<Recipient>, r: Recipient): seq<Recipient> {
    seq(|rows|, i requires 0 <= i < |rows| => if rows[i].id == r.id then r else rows[i])
  }

  function WithRows(record: PlanRecord, r: Recipient): PlanRecord {
    PlanRecord(record.plan, Rewritten(record.recipients, r), record.advances, record.trace)
  }

  ghost predicate IsDue(plan: Plan, now: Instant) {
    plan.status == Scheduled && plan.nextIntervalAt.Some? && plan.nextIntervalAt.value <= now
  }

  /** Instant by which due plans are ordered. */
  function DueTime(plan: Plan): Instant {
    match plan.nextIntervalAt case Some(t) => t case None => 0
  }

  /** The pending ones among the first n rows, in order. */
  function PendingAmong(rows: seq<Recipient>, n: nat): seq<Recipient>
    requires n <= |rows|
  {
    if n == 0 then []
    else PendingAmong(rows, n - 1) + if rows[n - 1].status == Pending then [rows[n - 1]] else []
  }

  lemma {:induction false} PendingAmongIs(rows: seq<Recipient>, p: nat, n: nat)
    requires p <= |rows| && n <= |rows|
    requires forall i :: 0 <= i < |rows| ==> (rows[i].status == Pending <==> p <= i)
    ensures PendingAmong(rows, n) == rows[p..Max(p, n)]
  {
    if n > 0 {
      PendingAmongIs(rows, p, n - 1);
    }
  }

  /** In the tables of a reachable plan the pending rows are all the rows from the first pending one. */
  lemma PendingAreTheSuffix(rows: seq<Recipient>, p: nat)
    requires p <= |rows|
    requires forall i :: 0 <= i < |rows| ==> (rows[i].status == Pending <==> p <= i)
    ensures |PendingAmong(rows, |rows|)| == |rows| - p
    ensures forall i :: 0 <= i < |rows| - p ==> PendingAmong(rows, |rows|)[i] == rows[p + i]
  {
    PendingAmongIs(rows, p, |rows|);
  }

  /** The positions below n that hold the status. */
  ghost function PositionsOf(rows: seq<Recipient>, n: nat, s: RecipientStatus): set<int>
    requires n <= |rows|
  {
    set i | 0 <= i < n && rows[i].status == s
  }

  lemma OneMorePosition(rows: seq<Recipient>, n: nat, s: RecipientStatus)
    requires n < |rows|
    ensures PositionsOf(rows, n + 1, s) == PositionsOf(rows, n, s) + if rows[n].status == s then {n as int} else {}
  {
  }

  /** A count is the number of positions that hold the status. */
  lemma {:induction false} CountIsCardinality(rows: seq<Recipient>, n: nat, s: RecipientStatus)
    requires n <= |rows|
    ensures CountStatus(rows, n, s) == |PositionsOf(rows, n, s)|
  {
    if n > 0 {
      CountIsCardinality(rows, n - 1, s);
      OneMorePosition(rows, n - 1, s);
      assert n - 1 !in PositionsOf(rows, n - 1, s);
    }
  }

  /** The five counters of one plan. */
  ghost predicate AreCountsOf(counts: Counts, rows: seq<Recipient>) {
    && counts.total == |rows|
    && counts.pending == CountStatus(rows, |rows|, Pending)
    && counts.sent == CountStatus(rows, |rows|, Sent)
    && counts.skipped == CountStatus(rows, |rows|, Skipped)
    && counts.failed == CountStatus(rows, |rows|, Failed)
  }

  function Grown(c: Counts, s: RecipientStatus, n: nat): Counts {
    var value := c.(total := c.total + n);
    match s
    case Pending => value.(pending := value.pending + n)
    case Sent => value.(sent := value.sent + n)
    case Skipped => value.(skipped := value.skipped + n)
    case Failed => value.(failed := value.failed + n)
  }

  class PlanStore {
    var records: map<nat, PlanRecord>

    ghost predicate Valid()
      reads this
    {
      forall id :: id in records ==> Safe(records[id])
    }

    constructor ()
      ensures Valid() && records == map[]
    {
      records := map[];
    }

    /** One transaction: the plan and all its recipients, or nothing. */
    method CreateEmailPlan(planId: nat, plan: Plan, rows: seq<Recipient>, w: Write) returns (ok: bool)
      requires planId !in records
      modifies this
      ensures ok == (w == Stored)
      ensures w == Lost ==> records == old(records)
      ensures w != Lost ==>
                records == old(records)[planId := PlanRecord(plan, Inserted(rows, |rows|), [], Trace([], [], []))]
    {
      var table: seq<Recipient> := [];
      var i := 0;
      while i < |rows|
        invariant 0 <= i <= |rows| && table == Inserted(rows, i)
      {
        table := InsertRow(table, rows[i]);
        i := i + 1;
      }
      if w != Lost {
        records := records[planId := PlanRecord(plan, table, [], Trace([], [], []))];
      }
      ok := w == Stored;
    }

    method GetEmailPlan(planId: nat) returns (plan: Option<Plan>)
      ensures plan == if planId in records then Some(records[planId].plan) else None
    {
      if planId in records {
        plan := Some(records[planId].plan);
      } else {
        plan := None;
      }
    }

    /** Writes the columns an operation may change; the settings are never written. */
    method UpdateEmailPlanStatus(planId: nat, plan: Plan, w: Write) returns (ok: bool)
      requires planId in records && SameSettings(plan, records[planId].plan)
      modifies this
      ensures ok == (w == Stored)
      ensures records == old(records)[planId := WritePlan(old(records[planId]), plan, w).record]
    {
      if w != Lost {
        var row := records[planId].plan.(
          status := plan.status,
          advancedIntervals := plan.advancedIntervals,
          nextIntervalAt := plan.nextIntervalAt,
          lastAdvancedAt := plan.lastAdvancedAt,
          pausedAt := plan.pausedAt,
          completedAt := plan.completedAt);
        assert row == plan;
        records := records[planId := records[planId].(plan := row)];
      }
      ok := w == Stored;
    }

    method CountPendingRecipients(planId: nat) returns (count: nat)
      requires planId in records
      ensures var rows := records[planId].recipients;
              count == CountStatus(rows, |rows|, Pending) == |PendingAmong(rows, |rows|)|
    {
      var rows := records[planId].recipients;
      count := 0;
      var i := 0;
      while i < |rows|
        invariant 0 <= i <= |rows| && count == CountStatus(rows, i, Pending) == |PendingAmong(rows, i)|
      {
        if rows[i].status == Pending {
          count := count + 1;
        }
        i := i + 1;
      }
    }

    method ListPendingRecipients(planId: nat) returns (pend: seq<Recipient>)
      requires planId in records
      ensures var rows := records[planId].recipients; pend == PendingAmong(rows, |rows|)
    {
      var rows := records[planId].recipients;
      pend := [];
      var i := 0;
      while i < |rows|
        invariant 0 <= i <= |rows| && pend == PendingAmong(rows, i)
      {
        if rows[i].status == Pending {
          pend := pend + [rows[i]];
        }
        i := i + 1;
      }
    }

    /** Updates the row with the recipient's identifier. */
    method UpdateRecipient(planId: nat, r: Recipient, w: Write) returns (ok: bool)
      requires planId in records
      modifies this
      ensures ok == (w == Stored)
      ensures records == old(records)[planId :=
                if w == Lost then old(records[planId]) else WithRows(old(records[planId]), r)]
    {
      if w != Lost {
        var before := records[planId].recipients;
        var rows := before;
        var i := 0;
        while i < |rows|
          invariant 0 <= i <= |rows| && |rows| == |before|
          invariant forall j :: 0 <= j < |rows| ==> rows[j] == if j < i then Rewritten(before, r)[j] else before[j]
        {
          if rows[i].id == r.id {
            rows := rows[i := r];
          }
          i := i + 1;
        }
        assert rows == Rewritten(before, r);
        records := records[planId := PlanRecord(records[planId].plan, rows,
                                                records[planId].advances, records[planId].trace)];
      }
      ok := w == Stored;
    }

    method InsertAdvance(planId: nat, a: Advance, w: Write) returns (ok: bool)
      requires planId in records
      modifies this
      ensures ok == (w == Stored)
      ensures w == Lost ==> records == old(records)
      ensures w != Lost ==>
                records
                == old(records)[planId := old(records[planId]).(advances := old(records[planId]).advances + [a])]
    {
      if w != Lost {
        records := records[planId := records[planId].(advances := records[planId].advances + [a])];
      }
      ok := w == Stored;
    }

    method SumAttemptedToday(planId: nat, startOfDay: Instant, endOfDay: Instant) returns (sum: int)
      requires planId in records
      ensures sum == AttemptedWithin(records[planId].advances, startOfDay, endOfDay)
    {
      var advances := records[planId].advances;
      sum := 0;
      var i := 0;
      while i < |advances|
        invariant 0 <= i <= |advances| && sum == AttemptedWithin(advances[..i], startOfDay, endOfDay)
      {
        assert advances[..i + 1][..i] == advances[..i];
        if startOfDay <= advances[i].startedAt < endOfDay {
          sum := sum + advances[i].attempted;
        }
        i := i + 1;
      }
      assert advances[..|advances|] == advances;
    }

    /** The counters of the plans asked for; a plan without recipients has no entry. */
    method CountRecipientsByStatus(planIds: seq<nat>) returns (counts: map<nat, Counts>)
      ensures forall id :: id in counts <==> id in planIds && id in records && records[id].recipients != []
      ensures forall id :: id in counts ==> AreCountsOf(counts[id], records[id].recipients)
    {
      counts := map[];
      var i := 0;
      while i < |planIds|
        invariant 0 <= i <= |planIds|
        invariant forall id :: id in counts <==> id in planIds[..i] && id in records && records[id].recipients != []
        invariant forall id :: id in counts ==> AreCountsOf(counts[id], records[id].recipients)
      {
        assert planIds[..i + 1] == planIds[..i] + [planIds[i]];
        if planIds[i] in records {
          var value := CountOnePlan(records[planIds[i]].recipients);
          if value.total != 0 {
            counts := counts[planIds[i] := value];
          }
        }
        i := i + 1;
      }
      assert planIds[..|planIds|] == planIds;
    }

    /** One row of the grouped query for each status that occurs, added to the counters. */
    method CountOnePlan(rows: seq<Recipient>) returns (counts: Counts)
      ensures AreCountsOf(counts, rows)
    {
      counts := Counts(0, 0, 0, 0, 0);
      var pending := CountWith(rows, Pending);
      counts := Grown(counts, Pending, pending);
      var sent := CountWith(rows, Sent);
      counts := Grown(counts, Sent, sent);
      var skipped := CountWith(rows, Skipped);
      counts := Grown(counts, Skipped, skipped);
      var failed := CountWith(rows, Failed);
      counts := Grown(counts, Failed, failed);
      StatusesAddUp(rows, |rows|);
    }

    method CountWith(rows: seq<Recipient>, s: RecipientStatus) returns (count: nat)
      ensures count == CountStatus(rows, |rows|, s)
    {
      count := 0;
      var i := 0;
      while i < |rows|
        invariant 0 <= i <= |rows| && count == CountStatus(rows, i, s)
      {
        if rows[i].status == s {
          count := count + 1;
        }
        i := i + 1;
      }
    }

    /** Scheduled plans whose next instant has come, the longest overdue first. */
    method ListDuePlans(now: Instant) returns (due: seq<nat>)
      ensures Distinct(due)
      ensures forall id :: id in due <==> id in records && IsDue(records[id].plan, now)
      ensures forall i, j :: 0 <= i < j < |due| ==>
                DueTime(records[due[i]].plan) <= DueTime(records[due[j]].plan)
    {
      due := [];
      var rest := set id | id in records && records[id].plan.status == Scheduled
                           && records[id].plan.nextIntervalAt.Some?
                           && records[id].plan.nextIntervalAt.value <= now;
      while rest != {}
        invariant forall id :: id in rest ==> id in records && IsDue(records[id].plan, now) && id !in due
        invariant forall id :: id in due ==> id in records && IsDue(records[id].plan, now)
        invariant forall id :: id in records && IsDue(records[id].plan, now) ==> id in rest || id in due
        invariant Distinct(due)
        invariant forall i, j :: 0 <= i < j < |due| ==>
                    DueTime(records[due[i]].plan) <= DueTime(records[due[j]].plan)
        invariant forall i, id :: 0 <= i < |due| && id in rest ==>
                    DueTime(records[due[i]].plan) <= DueTime(records[id].plan)
        decreases rest
      {
        var first := Earliest(rest);
        due := due + [first];
        rest := rest - {first};
      }
    }

    method Earliest(ids: set<nat>) returns (first: nat)
      requires ids != {}
      requires forall id :: id in ids ==> id in records
      ensures first in ids
      ensures forall id :: id in ids ==>
                DueTime(records[first].plan) <= DueTime(records[id].plan)
    {
      first :| first in ids;
      var seen := {first};
      while ids - seen != {}
        invariant first in seen && seen <= ids
        invariant forall id :: id in seen ==>
                    DueTime(records[first].plan) <= DueTime(records[id].plan)
        decreases ids - seen
      {
        var id :| id in ids - seen;
        if DueTime(records[id].plan) < DueTime(records[first].plan) {
          first := id;
        }
        seen := seen + {id};
      }
      assert forall id :: id in ids ==> id in seen;
    }

    /** Adds to the trace; it is no table, but what the outside world has seen. */
    method Note(planId: nat, more: Trace)
      requires planId in records
      modifies this
      ensures records == old(records)[planId := Noted(old(records[planId]), more)]
    {
      records := records[planId := Noted(records[planId], more)];
    }
  }

  function Noted(r: PlanRecord, more: Trace): PlanRecord {
    PlanRecord(r.plan, r.recipients, r.advances,
               Trace(r.trace.mail + more.mail, r.trace.failedUpdates + more.failedUpdates,
                     r.trace.unrecorded + more.unrecorded))
  }

  /** The first n rows inserted one after the other. */
  function Inserted(rows: seq<Recipient>, n: nat): seq<Recipient>
    requires n <= |rows|
  {
    if n == 0 then [] else InsertRow(Inserted(rows, n - 1), rows[n - 1])
  }
}
