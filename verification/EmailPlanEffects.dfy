/**
  What the operations on a plan leave behind, told column by column: the rows of the recipients and
  the addresses written to, the advance row, the plan row.
*/
module EmailPlanEffects {
  import opened Basics
  import opened Database
  import opened UtcClock
  import opened EmailPlanModel
  import opened EmailPlanSafety
  import opened EmailPlanFaults
  import opened EmailPlanRuns
  import opened EmailPlanTheorems
  import opened EmailPlanProgress

  // ---------------------------------------------------------------- the row of a recipient

  lemma LoopRowIs(r: PlanRecord, call: Call, b: Batch, i: nat)
    requires i < |r.recipients|
    ensures var p := FirstPending(r.recipients);
            && |LoopRecipients(r, call, b)| == |r.recipients|
            && LoopRecipients(r, call, b)[i]
               == if p <= i < p + b.processed && call.faults.update(i - p) != Lost
                  then Settle(r.recipients[i], r.plan.advancedIntervals + 1, call.world(i - p))
                  else r.recipients[i]
  {
  }

  /**
    Whatever fails, an operation leaves a recipient's row as it is, or it is an advance, the
    recipient was pending, and the row now tells what it was written to and how that ended.
  */
  lemma RowTellsReply(r: PlanRecord, e: Event, i: nat)
    requires FinishedPrefix(r.recipients) && i < |r.recipients|
    ensures |Step(r, e).recipients| == |r.recipients|
    ensures var before, after, p := r.recipients[i], Step(r, e).recipients[i], FirstPending(r.recipients);
            after != before ==>
              && e.DoAdvance? && before.status == Pending && p <= i
              && Tells(before, after, r.plan.advancedIntervals + 1, e.call.world(i - p))
  {
    if e.DoAdvance? {
      var p := FirstPending(r.recipients);
      BatchRowsAre(r, e.call);
      LoopRowIs(r, e.call, BatchOf(r, e.call), i);
      PendingSuffix(r.recipients);
      if p <= i {
        SettleTells(r.recipients[i], r.plan.advancedIntervals + 1, e.call.world(i - p));
      }
    }
  }

  // ---------------------------------------------------------------- addresses

  /** Every message of a batch went to the chosen contact of its recipient. */
  lemma {:induction false} MailForAt(pend: seq<Recipient>, world: World, now: Instant, n: nat, j: nat)
    returns (k: nat, c: nat)
    requires n <= |pend| && j < |MailFor(pend, world, now, n)|
    ensures k < n && IsChosen(world(k).contacts, c)
    ensures MailFor(pend, world, now, n)[j] == Mail(pend[k].id, now, world(k).contacts[c].content)
  {
    if j < |MailFor(pend, world, now, n - 1)| {
      k, c := MailForAt(pend, world, now, n - 1, j);
    } else {
      k := n - 1;
      c := BestContactIsFirstMaximal(world(k).contacts);
    }
  }

  lemma {:induction false} MailForHas(pend: seq<Recipient>, world: World, now: Instant, n: nat, k: nat)
    requires k < n <= |pend| && Reachable(world(k))
    ensures Mail(pend[k].id, now, BestContact(world(k).contacts).content) in MailFor(pend, world, now, n)
  {
    if k < n - 1 {
      MailForHas(pend, world, now, n - 1, k);
    }
  }

  lemma StepMail(r: PlanRecord, e: Event)
    ensures Step(r, e).trace.mail
            == r.trace.mail + if Sends(r, e) then LoopMail(r, e.call, BatchOf(r, e.call).processed) else []
  {
    if Sends(r, e) {
      BatchTrace(r, e.call);
    } else {
      assert r.trace.mail + [] == r.trace.mail;
    }
  }

  /** Whatever fails, each new message goes to the chosen contact of a recipient that was pending. */
  lemma NewMailIsAddressed(r: PlanRecord, e: Event, j: nat) returns (i: nat, c: nat)
    requires FinishedPrefix(r.recipients) && |r.trace.mail| <= j < |Step(r, e).trace.mail|
    ensures e.DoAdvance? && FirstPending(r.recipients) <= i < |r.recipients| && r.recipients[i].status == Pending
    ensures var contacts := e.call.world(i - FirstPending(r.recipients)).contacts;
            && IsChosen(contacts, c)
            && Step(r, e).trace.mail[j] == Mail(r.recipients[i].id, e.call.now, contacts[c].content)
  {
    StepMail(r, e);
    i, c := BatchMailAt(r, e.call, j - |r.trace.mail|);
  }

  lemma BatchMailAt(r: PlanRecord, call: Call, j: nat) returns (i: nat, c: nat)
    requires FinishedPrefix(r.recipients) && j < |LoopMail(r, call, BatchOf(r, call).processed)|
    ensures FirstPending(r.recipients) <= i < |r.recipients| && r.recipients[i].status == Pending
    ensures var contacts := call.world(i - FirstPending(r.recipients)).contacts;
            && IsChosen(contacts, c)
            && LoopMail(r, call, BatchOf(r, call).processed)[j]
               == Mail(r.recipients[i].id, call.now, contacts[c].content)
  {
    PendingSuffix(r.recipients);
    var k;
    k, c := MailForAt(PendingRows(r.recipients), call.world, call.now, BatchOf(r, call).processed, j);
    i := FirstPending(r.recipients) + k;
  }

  ghost predicate Written(row: Recipient) {
    row.status == Sent || row.status == Failed
  }

  /** A message went out to the address the row names. */
  ghost predicate OnRecord(mail: seq<Mail>, row: Recipient) {
    && row.resolvedEmail.Some?
    && exists m :: m in mail && m.recipientId == row.id && m.address == row.resolvedEmail.value
  }

  lemma StepKeepsOnRecord(r: PlanRecord, e: Event, i: nat)
    requires FinishedPrefix(r.recipients) && i < |r.recipients|
    requires Written(r.recipients[i]) ==> OnRecord(r.trace.mail, r.recipients[i])
    ensures |Step(r, e).recipients| == |r.recipients|
    ensures Written(Step(r, e).recipients[i]) ==> OnRecord(Step(r, e).trace.mail, Step(r, e).recipients[i])
  {
    StepMail(r, e);
    RowTellsReply(r, e, i);
    if Sends(r, e) {
      BatchPutsOnRecord(r, e.call, i);
    } else if Written(r.recipients[i]) {
      assert Step(r, e).recipients == r.recipients;
    }
  }

  lemma BatchPutsOnRecord(r: PlanRecord, call: Call, i: nat)
    requires FinishedPrefix(r.recipients) && i < |r.recipients|
    requires Written(r.recipients[i]) ==> OnRecord(r.trace.mail, r.recipients[i])
    ensures var after := AdvanceBatch(r, call).record;
            && |after.recipients| == |r.recipients|
            && (Written(after.recipients[i]) ==>
                  OnRecord(r.trace.mail + LoopMail(r, call, BatchOf(r, call).processed), after.recipients[i]))
  {
    var p, b := FirstPending(r.recipients), BatchOf(r, call);
    BatchRowsAre(r, call);
    LoopRowIs(r, call, b, i);
    var mail := LoopMail(r, call, b.processed);
    if Written(r.recipients[i]) {
      var m :| m in r.trace.mail && m.recipientId == r.recipients[i].id
               && m.address == r.recipients[i].resolvedEmail.value;
      assert m in r.trace.mail + mail;
    }
    PendingSuffix(r.recipients);
    if p <= i < p + b.processed && Reachable(call.world(i - p)) {
      MailForHas(PendingRows(r.recipients), call.world, call.now, b.processed, i - p);
      assert PendingRows(r.recipients)[i - p] == r.recipients[i];
      var m := Mail(r.recipients[i].id, call.now, BestContact(call.world(i - p).contacts).content);
      assert m in mail && m in r.trace.mail + mail;
    }
  }

  lemma {:induction false} RunKeepsOnRecord(r: PlanRecord, es: seq<Event>, i: nat)
    requires Safe(r) && i < |r.recipients|
    requires Written(r.recipients[i]) ==> OnRecord(r.trace.mail, r.recipients[i])
    ensures |Run(r, es).recipients| == |r.recipients|
    ensures Written(Run(r, es).recipients[i]) ==> OnRecord(Run(r, es).trace.mail, Run(r, es).recipients[i])
  {
    if es != [] {
      var before := es[..|es| - 1];
      RunKeepsOnRecord(r, before, i);
      RunKeepsSafe(r, before);
      StepKeepsOnRecord(Run(r, before), es[|es| - 1], i);
    }
  }

  /** Whatever fails, a row that says sent or failed names an address a message to it went to. */
  lemma RowsNameTheAddress(b: Birth, es: seq<Event>, i: nat)
    requires Legal(b) && i < |Run(Born(b), es).recipients|
    ensures var r := Run(Born(b), es);
            Written(r.recipients[i]) ==> OnRecord(r.trace.mail, r.recipients[i])
  {
    ReachedRows(b, es);
    FreshRowsAre(b.targets, b.stamps);
    RunKeepsOnRecord(Born(b), es, i);
  }

  lemma {:induction false} WrittenAt(rows: seq<Recipient>, n: nat, j: nat) returns (i: nat)
    requires n <= |rows| && j < |WrittenIds(rows, n)|
    ensures i < n && Written(rows[i]) && rows[i].id == WrittenIds(rows, n)[j]
  {
    if j < |WrittenIds(rows, n - 1)| {
      i := WrittenAt(rows, n - 1, j);
    } else {
      i := n - 1;
    }
  }

  lemma {:induction false} MailsAtLeast(mail: seq<Mail>, j: nat)
    requires j < |mail|
    ensures MailsTo(mail, mail[j].recipientId) >= 1
  {
    if j < |mail| - 1 {
      MailsAtLeast(mail[..|mail| - 1], j);
    }
  }

  lemma {:induction false} TwoMails(mail: seq<Mail>, j: nat, k: nat)
    requires j < k < |mail| && mail[j].recipientId == mail[k].recipientId
    ensures MailsTo(mail, mail[j].recipientId) >= 2
  {
    if k < |mail| - 1 {
      TwoMails(mail[..|mail| - 1], j, k);
    } else {
      MailsAtLeast(mail[..|mail| - 1], j);
    }
  }

  /** Without faults the messages are those the rows name: every one went to its row's address. */
  lemma MessagesMatchRows(b: Birth, es: seq<Event>, j: nat) returns (i: nat)
    requires Legal(b) && AllFaultless(es) && j < |Run(Born(b), es).trace.mail|
    ensures var r := Run(Born(b), es);
            && i < |r.recipients| && Written(r.recipients[i])
            && r.trace.mail[j].recipientId == r.recipients[i].id
            && r.recipients[i].resolvedEmail == Some(r.trace.mail[j].address)
  {
    var r := Run(Born(b), es);
    ReachedTrace(b, es);
    ReachedSendsBounded(b, es);
    i := WrittenAt(r.recipients, |r.recipients|, j);
    RowsNameTheAddress(b, es, i);
    OnlyMessage(r, i, j);
  }

  lemma OnlyMessage(r: PlanRecord, i: nat, j: nat)
    requires SendsBounded(r) && r.trace.failedUpdates == []
    requires i < |r.recipients| && OnRecord(r.trace.mail, r.recipients[i])
    requires j < |r.trace.mail| && r.trace.mail[j].recipientId == r.recipients[i].id
    ensures r.recipients[i].resolvedEmail == Some(r.trace.mail[j].address)
  {
    var m :| m in r.trace.mail && m.recipientId == r.recipients[i].id
             && m.address == r.recipients[i].resolvedEmail.value;
    var k :| 0 <= k < |r.trace.mail| && r.trace.mail[k] == m;
    assert SendsTo(r, r.recipients[i].id) <= 1;
    if k < j {
      TwoMails(r.trace.mail, k, j);
    } else if j < k {
      TwoMails(r.trace.mail, j, k);
    }
  }

  // ---------------------------------------------------------------- which advances are turned away

  /** Whatever fails, an advance is turned away for exactly these reasons, and then changes nothing. */
  lemma TurnedAway(r: PlanRecord, call: Call)
    ensures r.plan.status == Completed ==> AdvancePlan(r, call) == Outcome(r, Some(CompletedCannotAdvance))
    ensures r.plan.status == Paused && !call.manual ==> AdvancePlan(r, call) == Outcome(r, Some(PausedCannotAdvance))
    ensures r.plan.status == Scheduled && !call.manual && NotDue(r.plan, call.now) ==>
              AdvancePlan(r, call) == Outcome(r, Some(NotDueYet))
    ensures Accepted(r.plan, call) ==> AdvancePlan(r, call).error in {None, Some(StoreFailed)}
  {
  }

  ghost predicate NotDue(plan: Plan, now: Instant) {
    plan.nextIntervalAt.Some? && now < plan.nextIntervalAt.value
  }

  ghost predicate Accepted(plan: Plan, call: Call) {
    || (call.manual && plan.status != Completed)
    || (plan.status == Scheduled && !NotDue(plan, call.now))
  }

  // ---------------------------------------------------------------- how much one advance submits

  /** The 24 hours a clock reading falls into. */
  ghost predicate Today(midnight: Instant, now: Instant) {
    midnight % 86_400_000_000_000 == 0 && midnight <= now < midnight + 86_400_000_000_000
  }

  /** The most one advance may submit: the quota, and what is left of the day's budget if there is one. */
  ghost function Allowance(r: PlanRecord, midnight: Instant): int {
    var used := AttemptedWithin(r.advances, midnight, midnight + 86_400_000_000_000);
    if r.plan.maxPerDay == None then r.plan.maxPerInterval
    else if r.plan.maxPerInterval < r.plan.maxPerDay.value - used then r.plan.maxPerInterval
    else if used < r.plan.maxPerDay.value then r.plan.maxPerDay.value - used
    else Min(0, r.plan.maxPerInterval)
  }

  lemma AllowanceIsCapacity(r: PlanRecord, now: Instant, midnight: Instant)
    requires Today(midnight, now)
    ensures SendCapacity(r.plan, RemainingToday(r, now)) == Allowance(r, midnight)
  {
    DailyQueryWindow(now, midnight);
    DayWindow(now, now);
    assert midnight == DayOf(now) * DAY && midnight + 86_400_000_000_000 == (DayOf(now) + 1) * DAY;
  }

  /** Whatever fails, one advance submits no more than that. */
  lemma AdvanceStaysWithinAllowance(r: PlanRecord, call: Call, midnight: Instant)
    requires Today(midnight, call.now)
    ensures |AdvancePlan(r, call).record.trace.mail| - |r.trace.mail| <= Max(0, Allowance(r, midnight))
  {
    var n := BatchOf(r, call).processed;
    AllowanceIsCapacity(r, call.now, midnight);
    BatchAttempts(call.world, SendCapacity(r.plan, RemainingToday(r, call.now)), |PendingRows(r.recipients)|,
                  call.faults.update);
    MailForLength(PendingRows(r.recipients), call.world, call.now, n);
    StepMail(r, DoAdvance(call));
  }

  // ---------------------------------------------------------------- the rows of plan and advance

  /** What an advance that handled somebody enters in the two tables. */
  ghost predicate Entered(before: PlanRecord, after: PlanRecord, call: Call, handled: nat, submitted: nat, left: nat) {
    if handled == 0 then
      && after.advances == before.advances
      && after.plan.advancedIntervals == before.plan.advancedIntervals
      && after.plan.lastAdvancedAt == before.plan.lastAdvancedAt
    else
      && |after.advances| == |before.advances| + 1 && after.advances[..|before.advances|] == before.advances
      && (var a := after.advances[|before.advances|];
          && a.intervalNumber == before.plan.advancedIntervals + 1 && a.isManual == call.manual
          && a.attempted == submitted && a.pendingAfter == left && a.startedAt == call.now)
      && after.plan.advancedIntervals == before.plan.advancedIntervals + 1
      && after.plan.lastAdvancedAt == Some(call.later)
  }

  /** How an advance leaves the plan: complete when nobody is left, paused if it was, scheduled otherwise. */
  ghost predicate Moved(before: Plan, after: Plan, call: Call, left: nat) {
    && after.pausedAt == before.pausedAt
    && if left == 0 then
         after.status == Completed && after.completedAt == Some(call.later) && after.nextIntervalAt == None
       else
         after.status == before.status && after.completedAt == before.completedAt
  }

  lemma CleanBatchEnters(r: PlanRecord, call: Call)
    requires Safe(r) && NoFaults(call.faults) && r.plan.status != Completed
    ensures var n := Reach(r, call);
            && Entered(r, CleanBatch(r, call), call, n, Attempts(call.world, n), |PendingRows(r.recipients)| - n)
            && Moved(r.plan, CleanBatch(r, call).plan, call, |PendingRows(r.recipients)| - n)
  {
  }

  lemma CleanBatchMails(r: PlanRecord, call: Call)
    ensures |CleanBatch(r, call).trace.mail| == |r.trace.mail| + Attempts(call.world, Reach(r, call))
  {
    MailForLength(PendingRows(r.recipients), call.world, call.now, Reach(r, call));
  }

  /** All that an accepted advance with this allowance does, told by the tables before and after. */
  ghost predicate Advanced(before: PlanRecord, after: PlanRecord, call: Call, allowance: int) {
    var handled := FirstPending(after.recipients) - FirstPending(before.recipients);
    var submitted := |after.trace.mail| - |before.trace.mail|;
    var left := |after.recipients| - FirstPending(after.recipients);
    && handled >= 0 && submitted >= 0
    && Entered(before, after, call, handled, submitted, left)
    && Moved(before.plan, after.plan, call, left)
    && (left > 0 ==> submitted == Max(0, allowance))
  }

  lemma CleanBatchAdvances(r: PlanRecord, call: Call)
    requires Safe(r) && NoFaults(call.faults) && r.plan.status != Completed
    ensures Advanced(r, CleanBatch(r, call), call, SendCapacity(r.plan, RemainingToday(r, call.now)))
  {
    CleanFirstPending(r, call);
    CleanBatchEnters(r, call);
    CleanBatchMails(r, call);
    if Reach(r, call) < |PendingRows(r.recipients)| {
      FullUnlessFinished(r, call);
    }
  }

  lemma PostponedAdvances(r: PlanRecord, call: Call)
    requires PendingRows(r.recipients) != [] && SendCapacity(r.plan, RemainingToday(r, call.now)) <= 0
    requires r.plan.status != Completed
    ensures Advanced(r, r.(plan := Postponed(r.plan, call.now)), call,
                     SendCapacity(r.plan, RemainingToday(r, call.now)))
  {
  }

  /**
    An accepted fault-free advance, in the words of the tables: it handles the first pending
    recipients, enters how many messages it submitted and how many recipients are left, and submits
    exactly its allowance whenever somebody is left.
  */
  lemma AdvanceEnters(r: PlanRecord, call: Call, midnight: Instant)
    requires Safe(r) && LifeCycle(r) && NoFaults(call.faults) && Accepted(r.plan, call) && Today(midnight, call.now)
    ensures AdvancePlan(r, call).error == None
    ensures Advanced(r, AdvancePlan(r, call).record, call, Allowance(r, midnight))
  {
    FaultlessAdvance(r, call);
    AllowanceIsCapacity(r, call.now, midnight);
    if RemainingToday(r, call.now) == Some(0) {
      PostponedAdvances(r, call);
    } else {
      CleanBatchAdvances(r, call);
    }
  }

  lemma FullUnlessFinished(r: PlanRecord, call: Call)
    requires Reach(r, call) < |PendingRows(r.recipients)|
    ensures Attempts(call.world, Reach(r, call)) == Max(0, SendCapacity(r.plan, RemainingToday(r, call.now)))
  {
    BatchIsShortestPrefix(r, call);
    var n := Reach(r, call);
    if n > 0 {
      assert Attempts(call.world, n - 1) < SendCapacity(r.plan, RemainingToday(r, call.now));
    }
  }

  // ---------------------------------------------------------------- time stamps

  /** The time stamps of a plan say what its status says. */
  ghost predicate Stamped(plan: Plan) {
    && (plan.status == Completed <==> plan.completedAt.Some?)
    && (plan.status == Paused ==> plan.pausedAt.Some?)
    && (plan.status == Scheduled ==> plan.pausedAt == None)
    && (plan.status == Completed ==> plan.nextIntervalAt == None)
    && plan.advancedIntervals >= 0 && (plan.advancedIntervals > 0 <==> plan.lastAdvancedAt.Some?)
  }

  lemma StepKeepsStamped(r: PlanRecord, e: Event)
    requires Stamped(r.plan)
    ensures Stamped(Step(r, e).plan)
  {
    if e.DoAdvance? {
      AdvanceKeepsStamped(r, e.call);
    }
  }

  lemma NextPlanIsStamped(plan: Plan, remaining: Option<int>, attempted: int, left: int, call: Call)
    requires Stamped(plan) && plan.status != Completed
    ensures Stamped(NextPlan(plan, remaining, attempted, left, call))
  {
  }

  lemma BatchKeepsStamped(r: PlanRecord, call: Call)
    requires Stamped(r.plan) && r.plan.status != Completed
    ensures Stamped(AdvanceBatch(r, call).record.plan)
  {
    var n := BatchOf(r, call).processed;
    var counted := r.plan.(advancedIntervals := r.plan.advancedIntervals + 1, lastAdvancedAt := Some(call.later));
    NextPlanIsStamped(if n > 0 then counted else r.plan, RemainingToday(r, call.now), Attempts(call.world, n),
                      |PendingRows(r.recipients)| - n, call);
  }

  lemma AdvanceKeepsStamped(r: PlanRecord, call: Call)
    requires Stamped(r.plan)
    ensures Stamped(AdvancePlan(r, call).record.plan)
  {
    if r.plan.status != Completed {
      BatchKeepsStamped(r, call);
    }
  }

  /** Whatever fails, in every reached plan. */
  lemma {:induction false} StampsFollowStatus(b: Birth, es: seq<Event>)
    requires |b.stamps| == |b.targets|
    ensures Stamped(Run(Born(b), es).plan)
  {
    if es != [] {
      StampsFollowStatus(b, es[..|es| - 1]);
      StepKeepsStamped(Run(Born(b), es[..|es| - 1]), es[|es| - 1]);
    }
  }

  // ---------------------------------------------------------------- creation

  /** The row created for one target. */
  ghost predicate IsRowOf(row: Recipient, target: Target, stamp: Stamp) {
    && row.id == stamp.id && row.createdAt == stamp.createdAt && row.accountId == target.accountId
    && row.status == Pending && row.attemptCount == 0
    && row.lastInterval == None && row.resolvedEmail == None && row.lastError == None
  }

  lemma {:induction false} EveryTargetHasARow(targets: seq<Target>, stamps: seq<Stamp>, i: nat)
    requires |stamps| == |targets| && i < |targets|
    ensures exists row :: row in FreshRows(targets, stamps) && IsRowOf(row, targets[i], stamps[i])
  {
    var n := |targets| - 1;
    var init, last := FreshRows(targets[..n], stamps[..n]), FreshRow(targets[n], stamps[n]);
    InsertMembers(init, last);
    if i < n {
      EveryTargetHasARow(targets[..n], stamps[..n], i);
      var row :| row in init && IsRowOf(row, targets[i], stamps[i]);
      assert row in InsertRow(init, last);
    } else {
      assert last in InsertRow(init, last) && IsRowOf(last, targets[i], stamps[i]);
    }
  }

  /** A new plan: the settings it was given, and one pending row for each target in the order of creation. */
  lemma CreationEnters(command: Command, targets: seq<Target>, stamps: seq<Stamp>, now: Instant)
    requires |stamps| == |targets| && DistinctStamps(stamps)
    ensures var r := NewRecord(command, targets, stamps, now);
            && |r.recipients| == |targets| && Ordered(r.recipients) && r.advances == [] && r.trace.mail == []
            && (forall i :: 0 <= i < |targets| ==>
                  exists row :: row in r.recipients && IsRowOf(row, targets[i], stamps[i]))
    ensures var plan := NewRecord(command, targets, stamps, now).plan;
            && plan.recipientCount == |targets| && plan.maxPerInterval == command.maxPerInterval
            && plan.intervalMinutes == command.intervalMinutes && plan.maxPerDay == command.maxPerDay
            && plan.status == Scheduled && plan.advancedIntervals == 0
            && plan.lastAdvancedAt == plan.pausedAt == plan.completedAt == None
            && (command.plannedStartAt == None && now != 0 ==> plan.nextIntervalAt == Some(now))
            && (command.plannedStartAt.Some? && command.plannedStartAt.value != 0 ==>
                  plan.nextIntervalAt == command.plannedStartAt)
  {
    FreshRowsAre(targets, stamps);
    forall i | 0 <= i < |targets|
      ensures exists row :: row in FreshRows(targets, stamps) && IsRowOf(row, targets[i], stamps[i])
    {
      EveryTargetHasARow(targets, stamps, i);
    }
  }
}
