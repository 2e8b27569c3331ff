/**
  What every run of a plan keeps, whichever store writes fail: finished recipients come first, in
  (created_at, id) order, and are never reopened; a completed plan has nobody pending.  Settled is
  the effect of the send loop on the rows, and BatchSound what is known of its updates.
*/
module EmailPlanSafety {
  import opened Basics
  import opened Database
  import opened UtcClock
  import opened EmailPlanModel

  datatype Event =
    | DoPause(now: Instant, w: Write)
    | DoResume(now: Instant, w: Write)
    | DoAdvance(call: Call)

  function Effect(r: PlanRecord, e: Event): Outcome {
    match e
    case DoPause(now, w) => Pause(r, now, w)
    case DoResume(now, w) => Resume(r, now, w)
    case DoAdvance(call) => AdvancePlan(r, call)
  }

  function Step(r: PlanRecord, e: Event): PlanRecord {
    Effect(r, e).record
  }

  function Run(r: PlanRecord, es: seq<Event>): PlanRecord {
    if es == [] then r else Step(Run(r, es[..|es| - 1]), es[|es| - 1])
  }

  // ---------------------------------------------------------------- the invariant

  /** Finished recipients come first in (created_at, id) order. */
  ghost predicate FinishedPrefix(rows: seq<Recipient>) {
    forall i, j :: 0 <= i < j < |rows| && rows[i].status == Pending ==> rows[j].status == Pending
  }

  ghost predicate Ordered(rows: seq<Recipient>) {
    forall i, j :: 0 <= i < j < |rows| ==>
      rows[i].createdAt < rows[j].createdAt
      || (rows[i].createdAt == rows[j].createdAt && rows[i].id < rows[j].id)
  }

  ghost predicate DistinctIds(rows: seq<Recipient>) {
    forall i, j :: 0 <= i < j < |rows| ==> rows[i].id != rows[j].id
  }

  /** A row is either untouched or was dealt with by exactly one stored update. */
  ghost predicate RowClean(r: Recipient) {
    if r.status == Pending then r.attemptCount == 0 && r.lastInterval == None
    else r.attemptCount == 1 && r.lastInterval.Some?
  }

  ghost predicate RowsSafe(rows: seq<Recipient>) {
    && FinishedPrefix(rows) && Ordered(rows) && DistinctIds(rows)
    && (forall i :: 0 <= i < |rows| ==> RowClean(rows[i]))
  }

  ghost predicate Safe(r: PlanRecord) {
    && RowsSafe(r.recipients)
    && r.plan.recipientCount == |r.recipients|
    && (r.plan.status == Completed ==> FirstPending(r.recipients) == |r.recipients|)
  }

  lemma PendingSuffix(rows: seq<Recipient>)
    requires FinishedPrefix(rows)
    ensures forall i :: FirstPending(rows) <= i < |rows| ==> rows[i].status == Pending
  {
  }

  lemma FirstPendingIs(rows: seq<Recipient>, p: nat)
    requires p <= |rows|
    requires forall i :: 0 <= i < p ==> Finished(rows[i])
    requires p < |rows| ==> rows[p].status == Pending
    ensures FirstPending(rows) == p
  {
  }

  /** All updates of a batch but the last of a broken one were stored. */
  ghost predicate BatchSound(b: Batch, update: nat -> Write) {
    && (b.broken ==> b.processed > 0 && update(b.processed - 1) != Stored)
    && (forall i :: 0 <= i < b.processed && !(b.broken && i == b.processed - 1) ==> update(i) == Stored)
  }

  lemma BatchIsSound(r: PlanRecord, call: Call)
    ensures BatchSound(BatchOf(r, call), call.faults.update)
  {
    var stop := StopAt(call.world, SendCapacity(r.plan, RemainingToday(r, call.now)), |PendingRows(r.recipients)|, 0);
    FirstFaultIs(call.faults.update, stop, 0);
  }

  /** Number of rows a batch leaves finished: those updates that took effect. */
  function Landed(call: Call, b: Batch): nat
    requires b.broken ==> b.processed > 0
  {
    if b.broken && call.faults.update(b.processed - 1) == Lost then b.processed - 1 else b.processed
  }

  /** `after` is the row `before` once interval k has given it the verdict s. */
  ghost predicate SettledRow(before: Recipient, after: Recipient, k: int, s: RecipientStatus) {
    && after.id == before.id && after.createdAt == before.createdAt && after.accountId == before.accountId
    && after.status == s && s != Pending
    && after.attemptCount == before.attemptCount + 1 && after.lastInterval == Some(k)
  }

  /** Rows `from..to` were pending and have been settled by interval k; no other row changed. */
  ghost predicate Settled(before: seq<Recipient>, after: seq<Recipient>, from: nat, to: nat, k: int, world: World) {
    && |after| == |before| && from <= to <= |before|
    && (forall i :: 0 <= i < |before| && !(from <= i < to) ==> after[i] == before[i])
    && (forall i :: from <= i < to ==> before[i].status == Pending)
    && (forall i :: from <= i < to ==> SettledRow(before[i], after[i], k, Verdict(world(i - from))))
  }

  lemma SettledSuffix(rows: seq<Recipient>, p: nat, k: int, world: World, update: nat -> Write, n: nat, landed: nat)
    requires p <= |rows| && landed <= n <= |rows| - p
    requires forall i :: p <= i < |rows| ==> rows[i].status == Pending
    requires forall i :: 0 <= i < n ==> (update(i) != Lost <==> i < landed)
    ensures Settled(rows, rows[..p] + SettledRows(rows[p..], k, world, update, n), p, p + landed, k, world)
  {
  }

  /** What the send loop does to the rows, whatever fails. */
  lemma LoopRows(r: PlanRecord, call: Call, b: Batch)
    requires FinishedPrefix(r.recipients)
    requires b.processed <= |PendingRows(r.recipients)| && BatchSound(b, call.faults.update)
    ensures var p := FirstPending(r.recipients);
            Settled(r.recipients, LoopRecipients(r, call, b), p, p + Landed(call, b),
                    r.plan.advancedIntervals + 1, call.world)
  {
    var p := FirstPending(r.recipients);
    PendingSuffix(r.recipients);
    var rows, k, update := r.recipients, r.plan.advancedIntervals + 1, call.faults.update;
    assert forall i :: 0 <= i < b.processed ==> (update(i) != Lost <==> i < Landed(call, b));
    assert LoopRecipients(r, call, b) == rows[..p] + SettledRows(rows[p..], k, call.world, update, b.processed);
    SettledSuffix(rows, p, k, call.world, update, b.processed, Landed(call, b));
  }

  lemma SettledKeepsRowsSafe(before: seq<Recipient>, after: seq<Recipient>, from: nat, to: nat, k: int, world: World)
    requires RowsSafe(before) && Settled(before, after, from, to, k, world)
    requires from == FirstPending(before)
    ensures RowsSafe(after) && FirstPending(after) == to
  {
    PendingSuffix(before);
    FirstPendingIs(after, to);
  }

  lemma SettlingKeepsRowsSafe(rows: seq<Recipient>, p: nat, k: int, world: World, update: nat -> Write, n: nat,
                              landed: nat)
    requires RowsSafe(rows) && p == FirstPending(rows) && landed <= n <= |rows| - p
    requires forall i :: p <= i < |rows| ==> rows[i].status == Pending
    requires forall i :: 0 <= i < n ==> (update(i) != Lost <==> i < landed)
    ensures var after := rows[..p] + SettledRows(rows[p..], k, world, update, n);
            RowsSafe(after) && |after| == |rows| && FirstPending(after) == p + landed
  {
    SettledSuffix(rows, p, k, world, update, n, landed);
    SettledKeepsRowsSafe(rows, rows[..p] + SettledRows(rows[p..], k, world, update, n), p, p + landed, k, world);
  }

  lemma BatchRowsAre(r: PlanRecord, call: Call)
    ensures AdvanceBatch(r, call).record.recipients == LoopRecipients(r, call, BatchOf(r, call))
  {
  }

  /** The rows an advance leaves behind. */
  lemma BatchRows(r: PlanRecord, call: Call)
    ensures AdvanceBatch(r, call).record.recipients == LoopRecipients(r, call, BatchOf(r, call))
    ensures AdvanceBatch(r, call).record.plan.recipientCount == r.plan.recipientCount
    ensures AdvanceBatch(r, call).record.plan.status == Completed ==>
              r.plan.status == Completed
              || (BatchOf(r, call).processed == |PendingRows(r.recipients)| && !BatchOf(r, call).broken)
  {
  }

  lemma SafeFrom(r: PlanRecord, rows: seq<Recipient>)
    requires r.recipients == rows && RowsSafe(rows)
    requires r.plan.recipientCount == |rows|
    requires r.plan.status == Completed ==> FirstPending(rows) == |rows|
    ensures Safe(r)
  {
  }

  lemma LoopKeepsRowsSafe(r: PlanRecord, call: Call, b: Batch)
    requires RowsSafe(r.recipients)
    requires b.processed <= |PendingRows(r.recipients)| && BatchSound(b, call.faults.update)
    ensures RowsSafe(LoopRecipients(r, call, b))
    ensures |LoopRecipients(r, call, b)| == |r.recipients|
    ensures FirstPending(LoopRecipients(r, call, b)) == FirstPending(r.recipients) + Landed(call, b)
  {
    var rows, p := r.recipients, FirstPending(r.recipients);
    var k, update := r.plan.advancedIntervals + 1, call.faults.update;
    assert forall i :: 0 <= i < b.processed ==> (update(i) != Lost <==> i < Landed(call, b));
    PendingSuffix(rows);
    SettlingKeepsRowsSafe(rows, p, k, call.world, update, b.processed, Landed(call, b));
    assert LoopRecipients(r, call, b) == rows[..p] + SettledRows(rows[p..], k, call.world, update, b.processed);
  }

  lemma BatchKeepsSafe(r: PlanRecord, call: Call)
    requires Safe(r) && r.plan.status != Completed
    ensures Safe(AdvanceBatch(r, call).record)
  {
    var b := BatchOf(r, call);
    BatchIsSound(r, call);
    LoopKeepsRowsSafe(r, call, b);
    BatchRows(r, call);
    SafeFrom(AdvanceBatch(r, call).record, LoopRecipients(r, call, b));
  }

  lemma StepKeepsSafe(r: PlanRecord, e: Event)
    requires Safe(r)
    ensures Safe(Step(r, e))
  {
    if e.DoAdvance? && r.plan.status != Completed {
      BatchKeepsSafe(r, e.call);
    }
  }

  lemma {:induction false} RunKeepsSafe(r: PlanRecord, es: seq<Event>)
    requires Safe(r)
    ensures Safe(Run(r, es))
  {
    if es != [] {
      RunKeepsSafe(r, es[..|es| - 1]);
      StepKeepsSafe(Run(r, es[..|es| - 1]), es[|es| - 1]);
    }
  }

  /** No operation changes what the plan was created with. */
  ghost predicate SameSettings(a: Plan, b: Plan) {
    && a.recipientCount == b.recipientCount
    && a.maxPerInterval == b.maxPerInterval
    && a.intervalMinutes == b.intervalMinutes
    && a.maxPerDay == b.maxPerDay
  }

  lemma StepKeepsSettings(r: PlanRecord, e: Event)
    ensures SameSettings(Step(r, e).plan, r.plan)
  {
  }

  lemma {:induction false} RunKeepsSettings(r: PlanRecord, es: seq<Event>)
    ensures SameSettings(Run(r, es).plan, r.plan)
  {
    if es != [] {
      RunKeepsSettings(r, es[..|es| - 1]);
      StepKeepsSettings(Run(r, es[..|es| - 1]), es[|es| - 1]);
    }
  }
}
