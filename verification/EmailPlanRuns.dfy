/**
  Runs on a store that never fails.  CleanBatch is what an advance then does; Strict collects what
  every such run keeps: the life cycle of a plan, the numbering of its advances, the attribution of
  its rows to them, and a trace that shows each submission once.  Each part has its own lemma, on
  sequences where it can, and StepKeepsStrict puts them together.
*/
module EmailPlanRuns {
  import opened Basics
  import opened Database
  import opened UtcClock
  import opened EmailPlanModel
  import opened EmailPlanSafety
  import opened EmailPlanFaults

  ghost predicate NoFaults(f: Faults) {
    f.insert == Stored && f.plan == Stored && forall i: nat :: f.update(i) == Stored
  }

  ghost predicate Faultless(e: Event) {
    match e
    case DoPause(_, w) => w == Stored
    case DoResume(_, w) => w == Stored
    case DoAdvance(call) => NoFaults(call.faults)
  }

  ghost predicate AllFaultless(es: seq<Event>) {
    forall i :: 0 <= i < |es| ==> Faultless(es[i])
  }

  /** Recipients one fault-free advance deals with. */
  function Reach(r: PlanRecord, call: Call): (n: nat)
    ensures n <= |PendingRows(r.recipients)|
  {
    StopAt(call.world, SendCapacity(r.plan, RemainingToday(r, call.now)), |PendingRows(r.recipients)|, 0)
  }

  /** The plan after a fault-free batch. */
  function BatchPlan(r: PlanRecord, call: Call): Plan {
    var n := Reach(r, call);
    var counted := if n > 0
                   then r.plan.(advancedIntervals := r.plan.advancedIntervals + 1, lastAdvancedAt := Some(call.later))
                   else r.plan;
    NextPlan(counted, RemainingToday(r, call.now), Attempts(call.world, n), |PendingRows(r.recipients)| - n, call)
  }

  /** Appended only when the advance dealt with somebody. */
  function NewAdvances(r: PlanRecord, call: Call): seq<Advance> {
    if Reach(r, call) > 0 then [AdvanceRow(r, call, Reach(r, call))] else []
  }

  /** A batch on a store that never fails. */
  function CleanBatch(r: PlanRecord, call: Call): PlanRecord {
    PlanRecord(BatchPlan(r, call),
               LoopRecipients(r, call, Batch(Reach(r, call), false)),
               r.advances + NewAdvances(r, call),
               r.trace.(mail := r.trace.mail + LoopMail(r, call, Reach(r, call))))
  }

  function CleanAdvance(r: PlanRecord, call: Call): PlanRecord {
    if Rejection(r.plan, call).Some? then r
    else if PendingRows(r.recipients) == [] then r.(plan := CompletedAgain(r.plan, call.later))
    else if RemainingToday(r, call.now) == Some(0) then r.(plan := Postponed(r.plan, call.now))
    else CleanBatch(r, call)
  }

  lemma FaultlessBatch(r: PlanRecord, call: Call)
    requires NoFaults(call.faults)
    ensures BatchOf(r, call) == Batch(Reach(r, call), false)
    ensures AdvanceBatch(r, call) == Outcome(CleanBatch(r, call), None)
  {
    FirstFaultIs(call.faults.update, Reach(r, call), 0);
    assert r.trace.failedUpdates + [] == r.trace.failedUpdates;
    assert r.trace.unrecorded + [] == r.trace.unrecorded;
    assert r.advances + [] == r.advances;
  }

  /** Without faults an advance is the clean one, and fails exactly when it is rejected. */
  lemma FaultlessAdvance(r: PlanRecord, call: Call)
    requires NoFaults(call.faults)
    ensures AdvancePlan(r, call) == Outcome(CleanAdvance(r, call), Rejection(r.plan, call))
  {
    FaultlessBatch(r, call);
  }

  lemma CleanRows(r: PlanRecord, call: Call)
    requires Safe(r) && NoFaults(call.faults)
    ensures var p := FirstPending(r.recipients);
            && Settled(r.recipients, CleanBatch(r, call).recipients, p, p + Reach(r, call),
                       r.plan.advancedIntervals + 1, call.world)
            && FirstPending(CleanBatch(r, call).recipients) == p + Reach(r, call)
  {
    FaultlessBatch(r, call);
    LoopRows(r, call, Batch(Reach(r, call), false));
    LoopKeepsRowsSafe(r, call, Batch(Reach(r, call), false));
  }

  lemma CleanFirstPending(r: PlanRecord, call: Call)
    requires Safe(r) && NoFaults(call.faults)
    ensures FirstPending(CleanBatch(r, call).recipients) == FirstPending(r.recipients) + Reach(r, call)
    ensures |CleanBatch(r, call).recipients| == |r.recipients|
    ensures |PendingRows(CleanBatch(r, call).recipients)| == |PendingRows(r.recipients)| - Reach(r, call)
  {
    CleanRows(r, call);
  }

  // ---------------------------------------------------------------- life cycle

  ghost predicate LifeCycle(r: PlanRecord) {
    && (r.plan.status == Completed <==> PendingRows(r.recipients) == [])
    && (r.plan.status == Completed ==> r.plan.nextIntervalAt == None && r.plan.completedAt.Some?)
  }

  lemma CleanPending(r: PlanRecord, call: Call)
    requires Safe(r) && NoFaults(call.faults)
    ensures PendingRows(CleanBatch(r, call).recipients) == [] <==> Reach(r, call) == |PendingRows(r.recipients)|
  {
    CleanFirstPending(r, call);
  }

  lemma CleanStatus(r: PlanRecord, call: Call)
    requires r.plan.status != Completed
    ensures var plan := CleanBatch(r, call).plan;
            && (plan.status == Completed <==> Reach(r, call) == |PendingRows(r.recipients)|)
            && (plan.status == Completed ==> plan.nextIntervalAt == None && plan.completedAt.Some?)
  {
  }

  lemma CleanBatchKeepsLifeCycle(r: PlanRecord, call: Call)
    requires Safe(r) && LifeCycle(r) && NoFaults(call.faults) && r.plan.status != Completed
    ensures LifeCycle(CleanBatch(r, call))
  {
    CleanPending(r, call);
    CleanStatus(r, call);
  }

  // ---------------------------------------------------------------- attribution

  /** Among the first n rows, those settled by interval k with status s. */
  function CountAt(rows: seq<Recipient>, n: nat, k: int, s: RecipientStatus): nat
    requires n <= |rows|
  {
    if n == 0 then 0
    else CountAt(rows, n - 1, k, s)
         + if rows[n - 1].lastInterval == Some(k) && rows[n - 1].status == s then 1 else 0
  }

  function CounterOf(a: Advance, s: RecipientStatus): int {
    match s
    case Sent => a.sent
    case Skipped => a.skipped
    case Failed => a.failed
    case Pending => 0
  }

  function SumOf(advances: seq<Advance>, s: RecipientStatus): int {
    if advances == [] then 0
    else SumOf(advances[..|advances| - 1], s) + CounterOf(advances[|advances| - 1], s)
  }

  /** Interval numbers of finished rows are in 1..count and never decrease. */
  ghost predicate IntervalsInOrder(rows: seq<Recipient>, count: int) {
    && (forall i :: 0 <= i < |rows| && Finished(rows[i]) ==>
          rows[i].lastInterval.Some? && 1 <= rows[i].lastInterval.value <= count)
    && (forall i, j :: 0 <= i < j < |rows| && Finished(rows[i]) && Finished(rows[j])
          && rows[i].lastInterval.Some? && rows[j].lastInterval.Some?
          ==> rows[i].lastInterval.value <= rows[j].lastInterval.value)
  }

  ghost predicate Numbered(r: PlanRecord) {
    && |r.advances| == r.plan.advancedIntervals
    && (forall k :: 0 <= k < |r.advances| ==>
          && r.advances[k].intervalNumber == k + 1
          && r.advances[k].attempted == r.advances[k].sent + r.advances[k].failed
          && r.advances[k].attempted + r.advances[k].skipped > 0)
  }

  /** Advance k counts exactly the rows it settled, status by status. */
  ghost predicate Attributed(rows: seq<Recipient>, advances: seq<Advance>) {
    forall k, s :: 0 <= k < |advances| && s != Pending ==>
      CounterOf(advances[k], s) == CountAt(rows, |rows|, k + 1, s)
  }

  lemma {:induction false} CountSettled(before: seq<Recipient>, after: seq<Recipient>, from: nat, to: nat, k0: int,
                                        world: World, n: nat, k: int, s: RecipientStatus)
    requires Settled(before, after, from, to, k0, world) && n <= |before| && s != Pending
    ensures CountAt(after, n, k, s)
            == CountAt(before, n, k, s) + if k == k0 then Tally(world, Max(0, Min(n, to) - from), s) else 0
  {
    if n > 0 {
      CountSettled(before, after, from, to, k0, world, n - 1, k, s);
    }
  }

  lemma {:induction false} NobodyAt(rows: seq<Recipient>, n: nat, k: int, s: RecipientStatus)
    requires n <= |rows| && s != Pending
    requires forall i :: 0 <= i < |rows| && Finished(rows[i]) ==> rows[i].lastInterval != Some(k)
    ensures CountAt(rows, n, k, s) == 0
  {
    if n > 0 {
      NobodyAt(rows, n - 1, k, s);
    }
  }

  lemma {:induction false} StatusSettled(before: seq<Recipient>, after: seq<Recipient>, from: nat, to: nat, k0: int,
                                         world: World, n: nat, s: RecipientStatus)
    requires Settled(before, after, from, to, k0, world) && n <= |before| && s != Pending
    ensures CountStatus(after, n, s) == CountStatus(before, n, s) + Tally(world, Max(0, Min(n, to) - from), s)
  {
    if n > 0 {
      StatusSettled(before, after, from, to, k0, world, n - 1, s);
    }
  }

  lemma {:induction false} ReachDealsWithAll(world: World, n: nat)
    ensures Tally(world, n, Sent) + Tally(world, n, Skipped) + Tally(world, n, Failed) == n
    ensures Tally(world, n, Pending) == 0
  {
    if n > 0 {
      ReachDealsWithAll(world, n - 1);
    }
  }

  lemma SettledKeepsOrder(before: seq<Recipient>, after: seq<Recipient>, from: nat, to: nat, k0: int, world: World)
    requires Settled(before, after, from, to, k0, world) && IntervalsInOrder(before, k0 - 1) && k0 >= 1
    requires forall i :: to <= i < |before| ==> before[i].status == Pending
    ensures IntervalsInOrder(after, if from == to then k0 - 1 else k0)
  {
  }

  ghost predicate Summed(rows: seq<Recipient>, advances: seq<Advance>, s: RecipientStatus) {
    CountStatus(rows, |rows|, s) == SumOf(advances, s)
  }

  /** Bookkeeping of a plan: rows, their totals and their attribution to advances. */
  ghost predicate Booked(rows: seq<Recipient>, advances: seq<Advance>) {
    && IntervalsInOrder(rows, |advances|)
    && Attributed(rows, advances)
    && Summed(rows, advances, Sent) && Summed(rows, advances, Skipped) && Summed(rows, advances, Failed)
  }

  lemma SettledKeepsAttributed(before: seq<Recipient>, after: seq<Recipient>, from: nat, to: nat, world: World,
                               advances: seq<Advance>, a: Advance)
    requires Settled(before, after, from, to, |advances| + 1, world)
    requires IntervalsInOrder(before, |advances|) && Attributed(before, advances)
    requires forall s :: s != Pending ==> CounterOf(a, s) == Tally(world, to - from, s)
    ensures Attributed(after, advances + [a])
  {
    forall k, s | 0 <= k <= |advances| && s != Pending
      ensures CounterOf((advances + [a])[k], s) == CountAt(after, |after|, k + 1, s)
    {
      CountSettled(before, after, from, to, |advances| + 1, world, |after|, k + 1, s);
      if k == |advances| {
        NobodyAt(before, |before|, k + 1, s);
      }
    }
  }

  lemma SettledKeepsSummed(before: seq<Recipient>, after: seq<Recipient>, from: nat, to: nat, k0: int, world: World,
                           advances: seq<Advance>, a: Advance, s: RecipientStatus)
    requires Settled(before, after, from, to, k0, world)
    requires s != Pending && Summed(before, advances, s) && CounterOf(a, s) == Tally(world, to - from, s)
    ensures Summed(after, advances + [a], s)
  {
    StatusSettled(before, after, from, to, k0, world, |after|, s);
    assert (advances + [a])[..|advances|] == advances;
  }

  lemma SettledKeepsBooked(before: seq<Recipient>, after: seq<Recipient>, from: nat, to: nat, world: World,
                           advances: seq<Advance>, a: Advance)
    requires Settled(before, after, from, to, |advances| + 1, world) && from < to
    requires Booked(before, advances)
    requires forall i :: to <= i < |before| ==> before[i].status == Pending
    requires forall s :: s != Pending ==> CounterOf(a, s) == Tally(world, to - from, s)
    ensures Booked(after, advances + [a])
  {
    SettledKeepsOrder(before, after, from, to, |advances| + 1, world);
    SettledKeepsAttributed(before, after, from, to, world, advances, a);
    SettledKeepsSummed(before, after, from, to, |advances| + 1, world, advances, a, Sent);
    SettledKeepsSummed(before, after, from, to, |advances| + 1, world, advances, a, Skipped);
    SettledKeepsSummed(before, after, from, to, |advances| + 1, world, advances, a, Failed);
  }

  lemma CleanKeepsNumbered(r: PlanRecord, call: Call)
    requires Numbered(r)
    ensures Numbered(CleanBatch(r, call))
  {
    ReachDealsWithAll(call.world, Reach(r, call));
  }

  lemma NobodySettled(before: seq<Recipient>, after: seq<Recipient>, at: nat, k0: int, world: World)
    requires Settled(before, after, at, at, k0, world)
    ensures before == after
  {
  }

  lemma NewAdvanceKeepsBooked(r: PlanRecord, call: Call, rows: seq<Recipient>) returns (advances: seq<Advance>)
    requires Booked(r.recipients, r.advances)
    requires forall i :: FirstPending(r.recipients) <= i < |r.recipients| ==> r.recipients[i].status == Pending
    requires var p := FirstPending(r.recipients);
             Settled(r.recipients, rows, p, p + Reach(r, call), |r.advances| + 1, call.world)
    ensures advances == r.advances + NewAdvances(r, call) && Booked(rows, advances)
  {
    advances := r.advances + NewAdvances(r, call);
    RowsKeepBooked(r, call, rows, FirstPending(r.recipients), advances);
  }

  lemma RowsKeepBooked(r: PlanRecord, call: Call, rows: seq<Recipient>, p: nat, advances: seq<Advance>)
    requires Booked(r.recipients, r.advances) && advances == r.advances + NewAdvances(r, call)
    requires forall i :: p <= i < |r.recipients| ==> r.recipients[i].status == Pending
    requires Settled(r.recipients, rows, p, p + Reach(r, call), |r.advances| + 1, call.world)
    ensures Booked(rows, advances)
  {
    var n := Reach(r, call);
    AdvanceRowCounts(r, call, n);
    AdvanceKeepsBooked(r.recipients, rows, p, n, call.world, r.advances, AdvanceRow(r, call, n));
  }

  /** A batch of n rows is booked by its advance row, which is left out when n is zero. */
  lemma AdvanceKeepsBooked(before: seq<Recipient>, after: seq<Recipient>, p: nat, n: nat, world: World,
                           advances: seq<Advance>, a: Advance)
    requires Settled(before, after, p, p + n, |advances| + 1, world) && Booked(before, advances)
    requires forall i :: p <= i < |before| ==> before[i].status == Pending
    requires forall s :: s != Pending ==> CounterOf(a, s) == Tally(world, n, s)
    ensures Booked(after, advances + if n > 0 then [a] else [])
  {
    if n > 0 {
      SettledKeepsBooked(before, after, p, p + n, world, advances, a);
    } else {
      NobodySettled(before, after, p, |advances| + 1, world);
      assert advances + [] == advances;
    }
  }

  lemma AdvanceRowCounts(r: PlanRecord, call: Call, n: nat)
    requires n <= |PendingRows(r.recipients)|
    ensures forall s :: s != Pending ==> CounterOf(AdvanceRow(r, call, n), s) == Tally(call.world, n, s)
  {
  }

  lemma CleanKeepsBooked(r: PlanRecord, call: Call)
    requires Safe(r) && Numbered(r) && Booked(r.recipients, r.advances) && NoFaults(call.faults)
    ensures Booked(CleanBatch(r, call).recipients, CleanBatch(r, call).advances)
  {
    CleanRows(r, call);
    PendingSuffix(r.recipients);
    var advances := NewAdvanceKeepsBooked(r, call, CleanBatch(r, call).recipients);
  }

  // ---------------------------------------------------------------- what was mailed

  function MailIds(mail: seq<Mail>): (ids: seq<nat>)
    ensures |ids| == |mail|
  {
    seq(|mail|, i requires 0 <= i < |mail| => mail[i].recipientId)
  }

  /** Ids of those of the first n rows whose message was handed to the SMTP sender. */
  function WrittenIds(rows: seq<Recipient>, n: nat): seq<nat>
    requires n <= |rows|
  {
    if n == 0 then []
    else WrittenIds(rows, n - 1) + if rows[n - 1].status in {Sent, Failed} then [rows[n - 1].id] else []
  }

  /** The submissions are those of the sent and failed rows, each once, in row order. */
  ghost predicate MailExact(rows: seq<Recipient>, mail: seq<Mail>) {
    MailIds(mail) == WrittenIds(rows, |rows|)
  }

  lemma MailIdsConcat(a: seq<Mail>, b: seq<Mail>)
    ensures MailIds(a + b) == MailIds(a) + MailIds(b)
  {
  }

  lemma {:induction false} MailForIds(pend: seq<Recipient>, world: World, now: Instant, n: nat)
    requires 0 < n <= |pend|
    ensures MailIds(MailFor(pend, world, now, n))
            == MailIds(MailFor(pend, world, now, n - 1)) + if Reachable(world(n - 1)) then [pend[n - 1].id] else []
  {
    MailIdsConcat(MailFor(pend, world, now, n - 1), Submission(pend[n - 1].id, now, world(n - 1)));
  }

  lemma {:induction false} SameWritten(before: seq<Recipient>, after: seq<Recipient>, n: nat)
    requires n <= |before| && n <= |after| && forall i :: 0 <= i < n ==> after[i] == before[i]
    ensures WrittenIds(after, n) == WrittenIds(before, n)
  {
    if n > 0 {
      SameWritten(before, after, n - 1);
    }
  }

  lemma {:induction false} PendingUnwritten(rows: seq<Recipient>, from: nat, n: nat)
    requires from <= n <= |rows| && forall i :: from <= i < n ==> rows[i].status == Pending
    ensures WrittenIds(rows, n) == WrittenIds(rows, from)
  {
    if from < n {
      PendingUnwritten(rows, from, n - 1);
    }
  }

  lemma {:induction false} BatchWritten(before: seq<Recipient>, after: seq<Recipient>, from: nat, n: nat, k0: int,
                                        world: World, now: Instant)
    requires from <= n <= |before| == |after|
    requires forall i :: from <= i < n ==> SettledRow(before[i], after[i], k0, Verdict(world(i - from)))
    ensures WrittenIds(after, n)
            == WrittenIds(after, from) + MailIds(MailFor(before[from..], world, now, n - from))
  {
    if from < n {
      BatchWritten(before, after, from, n - 1, k0, world, now);
      MailForIds(before[from..], world, now, n - from);
      assert before[from..][n - from - 1] == before[n - 1];
      assert SettledRow(before[n - 1], after[n - 1], k0, Verdict(world(n - 1 - from)));
    }
  }

  lemma WrittenSettled(before: seq<Recipient>, after: seq<Recipient>, from: nat, to: nat, k0: int, world: World,
                       now: Instant)
    requires Settled(before, after, from, to, k0, world)
    requires forall i :: from <= i < |before| ==> before[i].status == Pending
    ensures WrittenIds(after, |after|)
            == WrittenIds(before, |before|) + MailIds(MailFor(before[from..], world, now, to - from))
  {
    SameWritten(before, after, from);
    PendingUnwritten(before, from, |before|);
    PendingUnwritten(after, to, |after|);
    BatchWritten(before, after, from, to, k0, world, now);
  }

  lemma SettledKeepsMailExact(before: seq<Recipient>, after: seq<Recipient>, mail: seq<Mail>, p: nat, n: nat, k0: int,
                              world: World, now: Instant)
    requires MailExact(before, mail) && Settled(before, after, p, p + n, k0, world)
    requires forall i :: p <= i < |before| ==> before[i].status == Pending
    ensures MailExact(after, mail + MailFor(before[p..], world, now, n))
  {
    WrittenSettled(before, after, p, p + n, k0, world, now);
    MailIdsConcat(mail, MailFor(before[p..], world, now, n));
  }

  lemma CleanKeepsMailExact(r: PlanRecord, call: Call, rows: seq<Recipient>)
    requires MailExact(r.recipients, r.trace.mail)
    requires forall i :: FirstPending(r.recipients) <= i < |r.recipients| ==> r.recipients[i].status == Pending
    requires var p := FirstPending(r.recipients);
             Settled(r.recipients, rows, p, p + Reach(r, call), r.plan.advancedIntervals + 1, call.world)
    ensures MailExact(rows, r.trace.mail + LoopMail(r, call, Reach(r, call)))
  {
    SettledKeepsMailExact(r.recipients, rows, r.trace.mail, FirstPending(r.recipients), Reach(r, call),
                          r.plan.advancedIntervals + 1, call.world, call.now);
  }

  // ---------------------------------------------------------------- the invariant of fault-free runs

  /** The latest advance tells how many recipients are still pending. */
  ghost predicate LastPending(r: PlanRecord) {
    r.advances != [] ==> r.advances[|r.advances| - 1].pendingAfter == |PendingRows(r.recipients)|
  }

  lemma CleanKeepsLastPending(r: PlanRecord, call: Call)
    requires Safe(r) && LastPending(r) && NoFaults(call.faults)
    ensures LastPending(CleanBatch(r, call))
  {
    CleanFirstPending(r, call);
    FewerPending(r, call);
  }

  lemma FewerPending(r: PlanRecord, call: Call)
    requires LastPending(r)
    requires |PendingRows(CleanBatch(r, call).recipients)| == |PendingRows(r.recipients)| - Reach(r, call)
    ensures LastPending(CleanBatch(r, call))
  {
    if Reach(r, call) == 0 {
      assert CleanBatch(r, call).advances == r.advances;
    }
  }

  ghost predicate Strict(r: PlanRecord) {
    && Safe(r)
    && LifeCycle(r)
    && Numbered(r)
    && LastPending(r)
    && Booked(r.recipients, r.advances)
    && MailExact(r.recipients, r.trace.mail)
    && r.trace.failedUpdates == [] && r.trace.unrecorded == []
  }

  lemma CleanBatchKeepsStrict(r: PlanRecord, call: Call)
    requires Strict(r) && r.plan.status != Completed && NoFaults(call.faults)
    ensures Strict(CleanBatch(r, call))
  {
    var after := CleanBatch(r, call);
    assert Safe(after) by {
      FaultlessBatch(r, call);
      BatchKeepsSafe(r, call);
    }
    CleanBatchKeepsLifeCycle(r, call);
    CleanKeepsNumbered(r, call);
    CleanKeepsLastPending(r, call);
    CleanKeepsBooked(r, call);
    assert MailExact(after.recipients, after.trace.mail) by {
      CleanRows(r, call);
      PendingSuffix(r.recipients);
      CleanKeepsMailExact(r, call, after.recipients);
    }
  }

  /** Operations that only move the plan between Scheduled and Paused, or postpone it. */
  lemma PlanChangeKeepsStrict(r: PlanRecord, plan: Plan)
    requires Strict(r) && r.plan.status != Completed && plan.status != Completed
    requires plan.recipientCount == r.plan.recipientCount
    requires plan.advancedIntervals == r.plan.advancedIntervals
    ensures Strict(PlanRecord(plan, r.recipients, r.advances, r.trace))
  {
  }

  /** What a fault-free step is: nothing, a change of the plan alone, or a clean batch. */
  lemma FaultlessStep(r: PlanRecord, e: Event) returns (plan: Plan)
    requires Faultless(e) && LifeCycle(r) && r.plan.status != Completed
    ensures plan.status != Completed && plan.recipientCount == r.plan.recipientCount
            && plan.advancedIntervals == r.plan.advancedIntervals
    ensures || Step(r, e) == PlanRecord(plan, r.recipients, r.advances, r.trace)
            || (e.DoAdvance? && Step(r, e) == CleanBatch(r, e.call))
  {
    plan := Step(r, e).plan;
    match e {
      case DoAdvance(call) =>
        FaultlessAdvance(r, call);
        if AdvancePlan(r, call).record == CleanBatch(r, call) {
          plan := r.plan;
        }
      case _ =>
    }
  }

  lemma StepKeepsStrict(r: PlanRecord, e: Event)
    requires Strict(r) && Faultless(e)
    ensures Strict(Step(r, e))
  {
    if r.plan.status == Completed {
      CompletedStep(r, e);
    } else {
      var plan := FaultlessStep(r, e);
      PlanChangeKeepsStrict(r, plan);
      if e.DoAdvance? {
        CleanBatchKeepsStrict(r, e.call);
      }
    }
  }

  lemma {:induction false} RunKeepsStrict(r: PlanRecord, es: seq<Event>)
    requires Strict(r) && AllFaultless(es)
    ensures Strict(Run(r, es))
  {
    if es != [] {
      RunKeepsStrict(r, es[..|es| - 1]);
      StepKeepsStrict(Run(r, es[..|es| - 1]), es[|es| - 1]);
    }
  }
}
