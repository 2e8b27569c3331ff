/**
  Crash tolerance: how many messages one recipient can get, what a day can cost, and how a plan
  recovers, when any store write of any operation may fail.
*/
module EmailPlanFaults {
  import opened Basics
  import opened Database
  import opened UtcClock
  import opened EmailPlanModel
  import opened EmailPlanSafety

  // ---------------------------------------------------------------- finished rows are final

  /** What the send loop makes of row i: settled if its update took effect, as it was otherwise. */
  lemma LoopRowAt(r: PlanRecord, call: Call, i: nat)
    requires FinishedPrefix(r.recipients) && i < |r.recipients|
    ensures var b := BatchOf(r, call);
            var p, after := FirstPending(r.recipients), LoopRecipients(r, call, b);
            && |after| == |r.recipients|
            && (if p <= i < p + Landed(call, b) then
                  r.recipients[i].status == Pending
                  && SettledRow(r.recipients[i], after[i], r.plan.advancedIntervals + 1, Verdict(call.world(i - p)))
                else after[i] == r.recipients[i])
  {
    BatchIsSound(r, call);
    LoopRows(r, call, BatchOf(r, call));
  }

  /** Row i after an operation: the same recipient, and untouched if it was finished. */
  lemma StepRowAt(r: PlanRecord, e: Event, i: nat)
    requires FinishedPrefix(r.recipients) && i < |r.recipients|
    ensures var after := Step(r, e).recipients;
            && |after| == |r.recipients|
            && after[i].id == r.recipients[i].id && after[i].accountId == r.recipients[i].accountId
            && (Finished(r.recipients[i]) ==> after[i] == r.recipients[i])
  {
    if e.DoAdvance? {
      LoopRowAt(r, e.call, i);
      BatchRowsAre(r, e.call);
    }
  }

  lemma StepKeepsLength(r: PlanRecord, e: Event)
    requires FinishedPrefix(r.recipients)
    ensures |Step(r, e).recipients| == |r.recipients|
  {
    if r.recipients != [] {
      StepRowAt(r, e, 0);
    } else if e.DoAdvance? {
      BatchRowsAre(r, e.call);
    }
  }

  lemma StepKeepsFinishedRows(r: PlanRecord, e: Event)
    requires Safe(r)
    ensures |Step(r, e).recipients| == |r.recipients|
    ensures forall i :: 0 <= i < |r.recipients| && Finished(r.recipients[i]) ==>
              Step(r, e).recipients[i] == r.recipients[i]
  {
    StepKeepsLength(r, e);
    forall i | 0 <= i < |r.recipients| && Finished(r.recipients[i])
      ensures Step(r, e).recipients[i] == r.recipients[i]
    {
      StepRowAt(r, e, i);
    }
  }

  /** Whatever fails, a finished recipient is never touched again. */
  lemma {:induction false} FinishedNeverReopens(r: PlanRecord, es: seq<Event>)
    requires Safe(r)
    ensures |Run(r, es).recipients| == |r.recipients|
    ensures forall i :: 0 <= i < |r.recipients| && Finished(r.recipients[i]) ==>
              Run(r, es).recipients[i] == r.recipients[i]
  {
    if es != [] {
      var before := es[..|es| - 1];
      FinishedNeverReopens(r, before);
      RunKeepsSafe(r, before);
      StepKeepsFinishedRows(Run(r, before), es[|es| - 1]);
    }
  }

  lemma CompletedStep(r: PlanRecord, e: Event)
    requires r.plan.status == Completed
    ensures Step(r, e) == r
  {
  }

  /** A completed plan absorbs every later operation. */
  lemma {:induction false} CompletedAbsorbs(r: PlanRecord, es: seq<Event>)
    requires r.plan.status == Completed
    ensures Run(r, es) == r
  {
    if es != [] {
      CompletedAbsorbs(r, es[..|es| - 1]);
      CompletedStep(r, es[|es| - 1]);
    }
  }

  lemma CompletedMeansNobodyPending(r: PlanRecord, es: seq<Event>)
    requires Safe(r)
    ensures Run(r, es).plan.status == Completed ==>
              forall i :: 0 <= i < |Run(r, es).recipients| ==> Finished(Run(r, es).recipients[i])
  {
    RunKeepsSafe(r, es);
  }

  /** After any failures, one accepted advance whose plan write is stored completes a plan with nothing left. */
  lemma AdvanceRepairsCompletion(r: PlanRecord, es: seq<Event>, call: Call)
    requires Safe(r)
    requires forall i :: 0 <= i < |Run(r, es).recipients| ==> Finished(Run(r, es).recipients[i])
    requires call.faults.plan == Stored
    ensures var before := Run(r, es);
            var after := AdvancePlan(before, call);
            Rejection(before.plan, call) == None ==>
              after.error == None && after.record.plan.status == Completed
              && after.record.plan.nextIntervalAt == None && after.record.plan.completedAt.Some?
              && after.record.trace == before.trace && after.record.recipients == before.recipients
  {
    var rows := Run(r, es).recipients;
    FirstPendingIs(rows, |rows|);
  }

  // ---------------------------------------------------------------- messages per recipient

  function MailsTo(mail: seq<Mail>, id: nat): nat {
    if mail == [] then 0
    else MailsTo(mail[..|mail| - 1], id) + if mail[|mail| - 1].recipientId == id then 1 else 0
  }

  lemma {:induction false} MailsToConcat(a: seq<Mail>, b: seq<Mail>, id: nat)
    ensures MailsTo(a + b, id) == MailsTo(a, id) + MailsTo(b, id)
  {
    if b == [] {
      assert a + b == a;
    } else {
      MailsToConcat(a, b[..|b| - 1], id);
      assert (a + b)[..|a + b| - 1] == a + b[..|b| - 1];
    }
  }

  function SendsTo(r: PlanRecord, id: nat): nat {
    MailsTo(r.trace.mail, id)
  }

  function FailedUpdatesOf(r: PlanRecord, id: nat): nat {
    multiset(r.trace.failedUpdates)[id]
  }

  /** One pass of the send loop writes to nobody it does not reach. */
  lemma {:induction false} MailForNobody(pend: seq<Recipient>, world: World, now: Instant, n: nat, id: nat)
    requires n <= |pend|
    requires forall j :: 0 <= j < n ==> pend[j].id != id
    ensures MailsTo(MailFor(pend, world, now, n), id) == 0
  {
    if n > 0 {
      MailForNobody(pend, world, now, n - 1, id);
      MailsToConcat(MailFor(pend, world, now, n - 1), Submission(pend[n - 1].id, now, world(n - 1)), id);
    }
  }

  lemma SubmissionTo(to: nat, now: Instant, reply: Reply, id: nat)
    ensures MailsTo(Submission(to, now, reply), id) == if to == id && Reachable(reply) then 1 else 0
  {
    assert Reachable(reply) ==> Submission(to, now, reply)[..0] == [];
  }

  /** One pass of the send loop writes at most once to a recipient it reaches. */
  lemma {:induction false} MailForOnce(pend: seq<Recipient>, world: World, now: Instant, n: nat, j: nat)
    requires j < n <= |pend|
    requires forall i :: 0 <= i < |pend| && i != j ==> pend[i].id != pend[j].id
    ensures MailsTo(MailFor(pend, world, now, n), pend[j].id) == if Reachable(world(j)) then 1 else 0
  {
    var id := pend[j].id;
    MailsToConcat(MailFor(pend, world, now, n - 1), Submission(pend[n - 1].id, now, world(n - 1)), id);
    SubmissionTo(pend[n - 1].id, now, world(n - 1), id);
    if n == j + 1 {
      MailForNobody(pend, world, now, j, id);
    } else {
      MailForOnce(pend, world, now, n - 1, j);
    }
  }

  ghost predicate SendsBounded(r: PlanRecord) {
    forall i :: 0 <= i < |r.recipients| ==>
      SendsTo(r, r.recipients[i].id)
      <= FailedUpdatesOf(r, r.recipients[i].id) + if Finished(r.recipients[i]) then 1 else 0
  }

  lemma BatchTrace(r: PlanRecord, call: Call)
    ensures var b := BatchOf(r, call);
            var after := AdvanceBatch(r, call).record;
            && after.trace.mail == r.trace.mail + LoopMail(r, call, b.processed)
            && after.trace.failedUpdates
               == r.trace.failedUpdates + if b.broken then [PendingRows(r.recipients)[b.processed - 1].id] else []
  {
  }

  lemma SuffixMail(rows: seq<Recipient>, p: nat, world: World, now: Instant, n: nat, i: nat)
    requires DistinctIds(rows) && p + n <= |rows| && i < |rows|
    ensures MailsTo(MailFor(rows[p..], world, now, n), rows[i].id)
            == if p <= i < p + n && Reachable(world(i - p)) then 1 else 0
  {
    var pend := rows[p..];
    assert forall j :: 0 <= j < |pend| ==> pend[j] == rows[p + j];
    if p <= i < p + n {
      MailForOnce(pend, world, now, n, i - p);
    } else {
      MailForNobody(pend, world, now, n, rows[i].id);
    }
  }

  lemma BatchSendsTo(r: PlanRecord, call: Call, i: nat)
    requires DistinctIds(r.recipients) && i < |r.recipients|
    ensures var b := BatchOf(r, call);
            var p := FirstPending(r.recipients);
            SendsTo(AdvanceBatch(r, call).record, r.recipients[i].id)
            == SendsTo(r, r.recipients[i].id)
               + if p <= i < p + b.processed && Reachable(call.world(i - p)) then 1 else 0
  {
    var n := BatchOf(r, call).processed;
    BatchTrace(r, call);
    MailsToConcat(r.trace.mail, LoopMail(r, call, n), r.recipients[i].id);
    SuffixMail(r.recipients, FirstPending(r.recipients), call.world, call.now, n, i);
  }

  lemma BatchFailuresOf(r: PlanRecord, call: Call, i: nat)
    requires DistinctIds(r.recipients) && i < |r.recipients|
    ensures var b := BatchOf(r, call);
            FailedUpdatesOf(AdvanceBatch(r, call).record, r.recipients[i].id)
            == FailedUpdatesOf(r, r.recipients[i].id)
               + if b.broken && i == FirstPending(r.recipients) + b.processed - 1 then 1 else 0
  {
    var b := BatchOf(r, call);
    BatchTrace(r, call);
    if b.broken {
      assert PendingRows(r.recipients)[b.processed - 1] == r.recipients[FirstPending(r.recipients) + b.processed - 1];
    }
  }

  /** The rows after a batch: same identities, and everything up to the last landed update is finished. */
  lemma BatchFinishes(r: PlanRecord, call: Call)
    requires Safe(r)
    ensures var after := AdvanceBatch(r, call).record.recipients;
            && |after| == |r.recipients|
            && (forall i :: 0 <= i < |after| ==> after[i].id == r.recipients[i].id)
            && (forall i :: 0 <= i < |after| ==>
                  (Finished(after[i]) <==> i < FirstPending(r.recipients) + Landed(call, BatchOf(r, call))))
  {
    BatchRowsAre(r, call);
    LoopKeepsLength(r, call);
    var after := LoopRecipients(r, call, BatchOf(r, call));
    forall i | 0 <= i < |after|
      ensures after[i].id == r.recipients[i].id
      ensures Finished(after[i]) <==> i < FirstPending(r.recipients) + Landed(call, BatchOf(r, call))
    {
      BatchFinishesAt(r, call, i);
    }
  }

  lemma LoopKeepsLength(r: PlanRecord, call: Call)
    ensures |LoopRecipients(r, call, BatchOf(r, call))| == |r.recipients|
  {
  }

  lemma BatchFinishesAt(r: PlanRecord, call: Call, i: nat)
    requires FinishedPrefix(r.recipients) && i < |r.recipients|
    ensures var after := LoopRecipients(r, call, BatchOf(r, call));
            && |after| == |r.recipients| && after[i].id == r.recipients[i].id
            && (Finished(after[i]) <==> i < FirstPending(r.recipients) + Landed(call, BatchOf(r, call)))
  {
    LoopRowAt(r, call, i);
    PendingSuffix(r.recipients);
  }

  lemma BatchKeepsSendsBounded(r: PlanRecord, call: Call)
    requires Safe(r) && SendsBounded(r)
    ensures SendsBounded(AdvanceBatch(r, call).record)
  {
    var after := AdvanceBatch(r, call).record;
    BatchFinishes(r, call);
    PendingSuffix(r.recipients);
    forall i | 0 <= i < |after.recipients|
      ensures SendsTo(after, after.recipients[i].id)
              <= FailedUpdatesOf(after, after.recipients[i].id) + if Finished(after.recipients[i]) then 1 else 0
    {
      BatchSendsTo(r, call, i);
      BatchFailuresOf(r, call, i);
    }
  }

  lemma StepKeepsSendsBounded(r: PlanRecord, e: Event)
    requires Safe(r) && SendsBounded(r)
    ensures SendsBounded(Step(r, e))
  {
    if e.DoAdvance? {
      BatchKeepsSendsBounded(r, e.call);
    }
  }

  /**
    Over any run with any failures, a recipient is written to at most once more than its update
    failed, and not even that once while it is still pending.
  */
  lemma {:induction false} SendsAreBounded(r: PlanRecord, es: seq<Event>)
    requires Safe(r) && SendsBounded(r)
    ensures SendsBounded(Run(r, es))
  {
    if es != [] {
      SendsAreBounded(r, es[..|es| - 1]);
      RunKeepsSafe(r, es[..|es| - 1]);
      StepKeepsSendsBounded(Run(r, es[..|es| - 1]), es[|es| - 1]);
    }
  }

  // ---------------------------------------------------------------- the exact number of messages

  /** One message if the row says that one was submitted. */
  function Submitted(row: Recipient): nat {
    if row.status == Sent || row.status == Failed then 1 else 0
  }

  /** The operation gets as far as the send loop. */
  predicate Sends(r: PlanRecord, e: Event) {
    e.DoAdvance? && Rejection(r.plan, e.call) == None && PendingRows(r.recipients) != []
    && RemainingToday(r, e.call.now) != Some(0)
  }

  /** The advance submits a message to row i and then loses the update that would have said so. */
  predicate Forgets(r: PlanRecord, e: Event, i: nat) {
    Sends(r, e) &&
    (var b := BatchOf(r, e.call);
     && b.broken && i == FirstPending(r.recipients) + b.processed - 1
     && e.call.faults.update(b.processed - 1) == Lost && Reachable(e.call.world(b.processed - 1)))
  }

  /** How often a run forgets a message to row i. */
  function Forgotten(r: PlanRecord, es: seq<Event>, i: nat): nat {
    if es == [] then 0
    else
      var before, e := es[..|es| - 1], es[|es| - 1];
      Forgotten(r, before, i) + if Forgets(Run(r, before), e, i) then 1 else 0
  }

  lemma BatchSubmits(r: PlanRecord, call: Call, i: nat)
    requires Safe(r) && i < |r.recipients|
    ensures var b := BatchOf(r, call);
            var p := FirstPending(r.recipients);
            var after := AdvanceBatch(r, call).record.recipients;
            && |after| == |r.recipients| && after[i].id == r.recipients[i].id
            && (if p <= i < p + Landed(call, b) then
                  Submitted(r.recipients[i]) == 0
                  && Submitted(after[i]) == if Reachable(call.world(i - p)) then 1 else 0
                else Submitted(after[i]) == Submitted(r.recipients[i]))
  {
    LoopRowAt(r, call, i);
    BatchRowsAre(r, call);
  }

  lemma BatchSendsExactly(r: PlanRecord, call: Call, i: nat)
    requires Safe(r) && i < |r.recipients| && Sends(r, DoAdvance(call))
    ensures var after := AdvanceBatch(r, call).record;
            SendsTo(after, r.recipients[i].id) + Submitted(r.recipients[i])
            == SendsTo(r, r.recipients[i].id) + Submitted(after.recipients[i])
               + if Forgets(r, DoAdvance(call), i) then 1 else 0
  {
    BatchSendsTo(r, call, i);
    BatchSubmits(r, call, i);
  }

  lemma StepSendsExactly(r: PlanRecord, e: Event, i: nat)
    requires Safe(r) && i < |r.recipients|
    ensures |Step(r, e).recipients| == |r.recipients| && Step(r, e).recipients[i].id == r.recipients[i].id
    ensures SendsTo(Step(r, e), r.recipients[i].id) + Submitted(r.recipients[i])
            == SendsTo(r, r.recipients[i].id) + Submitted(Step(r, e).recipients[i])
               + if Forgets(r, e, i) then 1 else 0
  {
    if Sends(r, e) {
      BatchSendsExactly(r, e.call, i);
      BatchSubmits(r, e.call, i);
    }
  }

  /**
    Over any run with any failures, the messages a recipient gets are the one its row tells of and
    those that were forgotten: no update that was stored, and none of a skipped row, costs a message.
  */
  lemma {:induction false} SendsAreExact(r: PlanRecord, es: seq<Event>, i: nat)
    requires Safe(r) && i < |r.recipients|
    ensures |Run(r, es).recipients| == |r.recipients| && Run(r, es).recipients[i].id == r.recipients[i].id
    ensures SendsTo(Run(r, es), r.recipients[i].id) + Submitted(r.recipients[i])
            == SendsTo(r, r.recipients[i].id) + Submitted(Run(r, es).recipients[i]) + Forgotten(r, es, i)
  {
    if es != [] {
      SendsAreExact(r, es[..|es| - 1], i);
      RunKeepsSafe(r, es[..|es| - 1]);
      StepSendsExactly(Run(r, es[..|es| - 1]), es[|es| - 1], i);
    }
  }

  // ---------------------------------------------------------------- messages per day

  function MailOn(mail: seq<Mail>, day: int): nat {
    if mail == [] then 0
    else MailOn(mail[..|mail| - 1], day) + if DayOf(mail[|mail| - 1].startedAt) == day then 1 else 0
  }

  lemma {:induction false} MailOnConcat(a: seq<Mail>, b: seq<Mail>, day: int)
    ensures MailOn(a + b, day) == MailOn(a, day) + MailOn(b, day)
  {
    if b == [] {
      assert a + b == a;
    } else {
      MailOnConcat(a, b[..|b| - 1], day);
      assert (a + b)[..|a + b| - 1] == a + b[..|b| - 1];
    }
  }

  lemma MailForOn(pend: seq<Recipient>, world: World, now: Instant, n: nat, day: int)
    requires n <= |pend|
    ensures MailOn(MailFor(pend, world, now, n), day) == if DayOf(now) == day then Attempts(world, n) else 0
  {
    var mail, count := MailForDay(pend, world, now, n, day);
  }

  lemma {:induction false} MailForDay(pend: seq<Recipient>, world: World, now: Instant, n: nat, day: int)
    returns (mail: seq<Mail>, count: nat)
    requires n <= |pend|
    ensures mail == MailFor(pend, world, now, n) && count == Attempts(world, n)
    ensures MailOn(mail, day) == if DayOf(now) == day then count else 0
  {
    mail, count := [], 0;
    if n > 0 {
      mail, count := MailForDay(pend, world, now, n - 1, day);
      mail, count := OneMoreMail(mail, count, pend[n - 1].id, now, world(n - 1), day);
    }
  }

  lemma OneMoreMail(mail: seq<Mail>, count: nat, id: nat, now: Instant, reply: Reply, day: int)
    returns (all: seq<Mail>, more: nat)
    requires MailOn(mail, day) == if DayOf(now) == day then count else 0
    ensures all == mail + Submission(id, now, reply) && more == count + if Reachable(reply) then 1 else 0
    ensures MailOn(all, day) == if DayOf(now) == day then more else 0
  {
    all, more := mail + Submission(id, now, reply), count + if Reachable(reply) then 1 else 0;
    assert if Reachable(reply) then all[..|all| - 1] == mail else all == mail;
  }

  /** The send loop never exceeds its capacity. */
  lemma {:induction false} StopAtBelow(world: World, cap: int, m: nat, i: nat)
    requires i <= m
    ensures forall j :: i <= j < StopAt(world, cap, m, i) ==> Attempts(world, j) < cap
    ensures StopAt(world, cap, m, i) < m ==> Attempts(world, StopAt(world, cap, m, i)) >= cap
    decreases m - i
  {
    if i < m && Attempts(world, i) < cap {
      StopAtBelow(world, cap, m, i + 1);
    }
  }

  lemma BatchAttempts(world: World, cap: int, m: nat, update: nat -> Write)
    ensures Attempts(world, RunBatch(world, cap, m, update).processed) <= Max(0, cap)
  {
    StopAtBelow(world, cap, m, 0);
    var n := RunBatch(world, cap, m, update).processed;
    if n > 0 {
      assert Attempts(world, n - 1) < cap;
    }
  }

  lemma AttemptedOnAppend(advances: seq<Advance>, a: Advance, day: int)
    ensures AttemptedOn(advances + [a], day)
            == AttemptedOn(advances, day) + if DayOf(a.startedAt) == day then a.attempted else 0
  {
    assert (advances + [a])[..|advances|] == advances;
    InDay(a.startedAt, day);
  }

  /** The rows of one plan account for every message but those of advances that were never recorded. */
  ghost predicate DayAccounted(r: PlanRecord, day: int) {
    && MailOn(r.trace.mail, day) == AttemptedOn(r.advances, day) + MailOn(r.trace.unrecorded, day)
    && 0 <= AttemptedOn(r.advances, day)
    && (r.plan.maxPerDay.Some? ==> AttemptedOn(r.advances, day) <= Max(0, r.plan.maxPerDay.value))
  }

  /** An advance is either recorded whole, or all its messages are unrecorded. */
  lemma BatchRecords(r: PlanRecord, call: Call)
    ensures var b := BatchOf(r, call);
            var after := AdvanceBatch(r, call).record;
            var mail := LoopMail(r, call, b.processed);
            && after.trace.mail == r.trace.mail + mail
            && after.plan.maxPerDay == r.plan.maxPerDay
            && (|| (after.advances == r.advances + [AdvanceRow(r, call, b.processed)]
                    && after.trace.unrecorded == r.trace.unrecorded)
                || (after.advances == r.advances && after.trace.unrecorded == r.trace.unrecorded + mail)
                || (after.advances == r.advances && after.trace.unrecorded == r.trace.unrecorded
                    && b.processed == 0))
  {
    assert r.trace.unrecorded + [] == r.trace.unrecorded;
  }

  lemma BatchKeepsDayAccounted(r: PlanRecord, call: Call, day: int)
    requires DayAccounted(r, day)
    ensures DayAccounted(AdvanceBatch(r, call).record, day)
  {
    var b := BatchOf(r, call);
    var pend := PendingRows(r.recipients);
    var mail := LoopMail(r, call, b.processed);
    BatchRecords(r, call);
    BatchAttempts(call.world, SendCapacity(r.plan, RemainingToday(r, call.now)), |pend|, call.faults.update);
    MailForOn(pend, call.world, call.now, b.processed, day);
    MailOnConcat(r.trace.mail, mail, day);
    MailOnConcat(r.trace.unrecorded, mail, day);
    AttemptedOnAppend(r.advances, AdvanceRow(r, call, b.processed), day);
  }

  lemma StepKeepsDayAccounted(r: PlanRecord, e: Event, day: int)
    requires DayAccounted(r, day)
    ensures DayAccounted(Step(r, e), day)
  {
    if e.DoAdvance? {
      BatchKeepsDayAccounted(r, e.call, day);
    }
  }

  /** For every UTC day of every run, whatever fails. */
  lemma {:induction false} DaysAreAccounted(r: PlanRecord, es: seq<Event>, day: int)
    requires DayAccounted(r, day)
    ensures DayAccounted(Run(r, es), day)
  {
    if es != [] {
      DaysAreAccounted(r, es[..|es| - 1], day);
      StepKeepsDayAccounted(Run(r, es[..|es| - 1]), es[|es| - 1], day);
    }
  }
}
