/**
  The theorems about plans, from creation on: every plan that a caller can create, every run of
  operations on it, every answer of the outside world, every clock.
*/
module EmailPlanTheorems {
  import opened Basics
  import opened Database
  import opened UtcClock
  import opened EmailPlanModel
  import opened EmailPlanSafety
  import opened EmailPlanFaults
  import opened EmailPlanRuns

  // ---------------------------------------------------------------- creation

  ghost predicate DistinctAccounts(rows: seq<Recipient>) {
    forall i, j :: 0 <= i < j < |rows| ==> rows[i].accountId != rows[j].accountId
  }

  ghost predicate DistinctStamps(stamps: seq<Stamp>) {
    forall i, j :: 0 <= i < j < |stamps| ==> stamps[i].id != stamps[j].id
  }

  lemma {:induction false} InsertRowIs(rows: seq<Recipient>, r: Recipient) returns (at: nat)
    ensures at <= |rows| && InsertRow(rows, r) == rows[..at] + [r] + rows[at..]
    ensures at > 0 ==> Before(rows[at - 1], r)
    ensures forall i :: at <= i < |rows| ==> !Before(rows[i], r)
  {
    if rows == [] || Before(rows[|rows| - 1], r) {
      at := |rows|;
    } else {
      at := InsertRowIs(rows[..|rows| - 1], r);
      var last := rows[|rows| - 1];
      InitSlices(rows, at);
      assert InsertRow(rows, r) == rows[..at] + [r] + (rows[..|rows| - 1][at..] + [last]);
    }
  }

  /** Rows as they are right after creation. */
  ghost predicate Untouched(rows: seq<Recipient>) {
    && Ordered(rows) && DistinctIds(rows)
    && forall i :: 0 <= i < |rows| ==>
         rows[i].status == Pending && rows[i].attemptCount == 0 && rows[i].lastInterval == None
  }

  lemma InsertKeepsOrder(rows: seq<Recipient>, r: Recipient)
    requires Ordered(rows)
    requires forall i :: 0 <= i < |rows| ==> rows[i].id != r.id
    ensures Ordered(InsertRow(rows, r))
  {
    var at := InsertRowIs(rows, r);
    var out := InsertRow(rows, r);
    forall i, j | 0 <= i < j < |out|
      ensures Before(out[i], out[j])
    {
      assert i < at ==> out[i] == rows[i];
      assert i > at ==> out[i] == rows[i - 1];
      assert j < at ==> out[j] == rows[j];
      assert j > at ==> out[j] == rows[j - 1];
      if i < at == j {
        assert i < at - 1 ==> Before(rows[i], rows[at - 1]);
      }
    }
  }

  lemma InsertMembers(rows: seq<Recipient>, r: Recipient)
    ensures |InsertRow(rows, r)| == |rows| + 1
    ensures forall x :: x in InsertRow(rows, r) <==> x == r || x in rows
  {
    var at := InsertRowIs(rows, r);
    assert rows == rows[..at] + rows[at..];
  }

  lemma InsertKeepsIds(rows: seq<Recipient>, r: Recipient)
    requires DistinctIds(rows)
    requires forall i :: 0 <= i < |rows| ==> rows[i].id != r.id
    ensures DistinctIds(InsertRow(rows, r))
  {
    var at := InsertRowIs(rows, r);
  }

  lemma InsertKeepsUntouched(rows: seq<Recipient>, r: Recipient)
    requires Untouched(rows)
    requires r.status == Pending && r.attemptCount == 0 && r.lastInterval == None
    requires forall i :: 0 <= i < |rows| ==> rows[i].id != r.id
    ensures Untouched(InsertRow(rows, r))
  {
    InsertKeepsOrder(rows, r);
    InsertKeepsIds(rows, r);
    InsertMembers(rows, r);
    var out := InsertRow(rows, r);
    forall i | 0 <= i < |out|
      ensures out[i].status == Pending && out[i].attemptCount == 0 && out[i].lastInterval == None
    {
      assert out[i] in out;
    }
  }

  lemma InsertKeepsAccounts(rows: seq<Recipient>, r: Recipient)
    requires DistinctAccounts(rows)
    requires forall i :: 0 <= i < |rows| ==> rows[i].accountId != r.accountId
    ensures DistinctAccounts(InsertRow(rows, r))
  {
    var at := InsertRowIs(rows, r);
  }

  lemma {:induction false} FreshRowsAre(targets: seq<Target>, stamps: seq<Stamp>)
    requires |stamps| == |targets| && DistinctStamps(stamps)
    ensures |FreshRows(targets, stamps)| == |targets| && Untouched(FreshRows(targets, stamps))
    ensures forall x :: x in FreshRows(targets, stamps) ==>
              exists i :: 0 <= i < |targets| && x == FreshRow(targets[i], stamps[i])
    ensures DistinctTargets(targets) ==> DistinctAccounts(FreshRows(targets, stamps))
  {
    if targets != [] {
      var n := |targets| - 1;
      FreshRowsAre(targets[..n], stamps[..n]);
      var rows := FreshRows(targets[..n], stamps[..n]);
      forall i | 0 <= i < |rows|
        ensures exists j :: 0 <= j < n && rows[i] == FreshRow(targets[j], stamps[j])
      {
        assert rows[i] in rows;
        var j :| 0 <= j < n && rows[i] == FreshRow(targets[..n][j], stamps[..n][j]);
        assert rows[i] == FreshRow(targets[j], stamps[j]);
      }
      InsertKeepsUntouched(rows, FreshRow(targets[n], stamps[n]));
      InsertMembers(rows, FreshRow(targets[n], stamps[n]));
      if DistinctTargets(targets) {
        InsertKeepsAccounts(rows, FreshRow(targets[n], stamps[n]));
      }
    }
  }

  lemma {:induction false} NobodyWrittenYet(rows: seq<Recipient>, n: nat, s: RecipientStatus)
    requires n <= |rows| && s != Pending
    requires forall i :: 0 <= i < |rows| ==> rows[i].status == Pending
    ensures WrittenIds(rows, n) == [] && CountStatus(rows, n, s) == 0
  {
    if n > 0 {
      NobodyWrittenYet(rows, n - 1, s);
    }
  }

  /** A created plan starts with nobody mailed and everybody pending. */
  lemma CreatedIsStrict(command: Command, targets: seq<Target>, stamps: seq<Stamp>, now: Instant)
    requires targets != [] && |stamps| == |targets| && DistinctStamps(stamps)
    ensures var r := NewRecord(command, targets, stamps, now);
            && Strict(r) && SendsBounded(r) && |r.recipients| == |targets|
            && (forall day :: DayAccounted(r, day))
            && (DistinctTargets(targets) ==> DistinctAccounts(r.recipients))
  {
    var r := NewRecord(command, targets, stamps, now);
    FreshRowsAre(targets, stamps);
    UntouchedIsBooked(r.recipients);
    UntouchedIsSafe(r.recipients);
  }

  lemma UntouchedIsBooked(rows: seq<Recipient>)
    requires forall i :: 0 <= i < |rows| ==> rows[i].status == Pending
    ensures Booked(rows, []) && MailExact(rows, [])
  {
    NobodyWrittenYet(rows, |rows|, Sent);
    NobodyWrittenYet(rows, |rows|, Skipped);
    NobodyWrittenYet(rows, |rows|, Failed);
  }

  lemma UntouchedIsSafe(rows: seq<Recipient>)
    requires Untouched(rows)
    ensures RowsSafe(rows) && FirstPending(rows) == 0
  {
  }

  /** Everything that decides how a plan is created. */
  datatype Birth = Birth(command: Command, targets: seq<Target>, stamps: seq<Stamp>, now: Instant)

  /** Creation refuses an empty target list, dedupes accounts and gives every row a new id. */
  ghost predicate Legal(b: Birth) {
    b.targets != [] && |b.stamps| == |b.targets| && DistinctTargets(b.targets) && DistinctStamps(b.stamps)
  }

  function Born(b: Birth): PlanRecord
    requires |b.stamps| == |b.targets|
  {
    NewRecord(b.command, b.targets, b.stamps, b.now)
  }

  lemma ReachedIsStrict(b: Birth, es: seq<Event>)
    requires Legal(b) && AllFaultless(es)
    ensures Strict(Run(Born(b), es))
  {
    CreatedIsStrict(b.command, b.targets, b.stamps, b.now);
    RunKeepsStrict(Born(b), es);
  }

  // ---------------------------------------------------------------- conservation

  /**
    In every fault-free reachable state the advances are numbered 1..count, each attempted count
    is its sent plus its failed count, advance k counts exactly the rows that carry interval k,
    and the targets are the pending rows plus all that the advances dealt with.
  */
  lemma PlanConserves(b: Birth, es: seq<Event>)
    requires Legal(b) && AllFaultless(es)
    ensures var r := Run(Born(b), es);
            && Numbered(r) && Attributed(r.recipients, r.advances) && LastPending(r)
            && IntervalsInOrder(r.recipients, r.plan.advancedIntervals)
            && r.plan.recipientCount == |b.targets|
            && |b.targets| == CountStatus(r.recipients, |r.recipients|, Pending)
                              + SumOf(r.advances, Sent) + SumOf(r.advances, Skipped) + SumOf(r.advances, Failed)
            && (forall s :: s != Pending ==>
                  CountStatus(r.recipients, |r.recipients|, s) == SumOf(r.advances, s))
  {
    var r := Run(Born(b), es);
    ReachedIsStrict(b, es);
    RunKeepsSettings(Born(b), es);
    StatusesAddUp(r.recipients, |r.recipients|);
    forall s | s != Pending
      ensures CountStatus(r.recipients, |r.recipients|, s) == SumOf(r.advances, s)
    {
      assert Summed(r.recipients, r.advances, s);
    }
  }

  // ---------------------------------------------------------------- life cycle

  /**
    Completed holds exactly when nobody is pending; then there is no next instant and nothing can
    change any more.  Finished rows come first, each touched once, in the order of the intervals.
  */
  lemma PlanLifeCycle(b: Birth, es: seq<Event>, more: seq<Event>)
    requires Legal(b) && AllFaultless(es)
    ensures var r := Run(Born(b), es);
            && (r.plan.status == Completed <==> forall i :: 0 <= i < |r.recipients| ==> Finished(r.recipients[i]))
            && (r.plan.status == Completed ==> r.plan.nextIntervalAt == None && Run(r, more) == r)
            && FinishedPrefix(r.recipients)
            && IntervalsInOrder(r.recipients, r.plan.advancedIntervals)
            && (forall i :: 0 <= i < |r.recipients| ==>
                  r.recipients[i].attemptCount == if Finished(r.recipients[i]) then 1 else 0)
  {
    var r := Run(Born(b), es);
    ReachedIsStrict(b, es);
    if r.plan.status == Completed {
      CompletedAbsorbs(r, more);
    }
    if forall i :: 0 <= i < |r.recipients| ==> Finished(r.recipients[i]) {
      FirstPendingIs(r.recipients, |r.recipients|);
    }
  }

  /** The branch that completes a plan with nothing pending is never taken. */
  lemma NothingPendingIsUnreachable(b: Birth, es: seq<Event>, call: Call)
    requires Legal(b) && AllFaultless(es)
    requires Rejection(Run(Born(b), es).plan, call) == None
    ensures PendingRows(Run(Born(b), es).recipients) != []
  {
    ReachedIsStrict(b, es);
  }

  /** The instant the operation chooses as the next one, if it chooses any. */
  function Chosen(r: PlanRecord, e: Event): Option<Instant> {
    match e
    case DoPause(_, _) => None
    case DoResume(now, _) =>
      if r.plan.nextIntervalAt.None? || r.plan.nextIntervalAt.value < now then Some(now) else None
    case DoAdvance(call) =>
      if Rejection(r.plan, call).Some? then None
      else if r.plan.status == Paused then
        if RemainingToday(r, call.now) == Some(0) then None
        else Some(call.now + IntervalDuration(r.plan.intervalMinutes))
      else if BudgetGone(r, call) then Some(StartOfNextUtcDay(call.now))
      else Some(call.now + IntervalDuration(r.plan.intervalMinutes))
  }

  /** Nothing is left of the day's budget, if there is one, once the advance is through. */
  predicate BudgetGone(r: PlanRecord, call: Call) {
    r.plan.maxPerDay.Some?
    && AttemptedOn(r.advances, DayOf(call.now)) + Attempts(call.world, Reach(r, call)) >= r.plan.maxPerDay.value
  }

  function LastChosen(b: Birth, es: seq<Event>): Instant
    requires |b.stamps| == |b.targets|
  {
    if es == [] then
      match b.command.plannedStartAt case Some(t) => t case None => b.now
    else
      var before := es[..|es| - 1];
      match Chosen(Run(Born(b), before), es[|es| - 1]) case Some(t) => t case None => LastChosen(b, before)
  }

  lemma AdvanceChooses(r: PlanRecord, call: Call)
    requires LifeCycle(r)
    ensures var after := CleanAdvance(r, call).plan;
            after.status != Completed ==>
              after.nextIntervalAt
              == match Chosen(r, DoAdvance(call)) case Some(t) => TimePtr(t) case None => r.plan.nextIntervalAt
  {
  }

  lemma StepChooses(r: PlanRecord, e: Event)
    requires Faultless(e) && LifeCycle(r)
    ensures Step(r, e).plan.status != Completed ==>
              Step(r, e).plan.nextIntervalAt
              == match Chosen(r, e) case Some(t) => TimePtr(t) case None => r.plan.nextIntervalAt
  {
    if e.DoAdvance? {
      FaultlessAdvance(r, e.call);
      AdvanceChooses(r, e.call);
      assert Step(r, e) == CleanAdvance(r, e.call);
    }
  }

  /**
    The next instant of a plan that is not completed is the one chosen last; it is missing if and
    only if that was the zero time.
  */
  lemma {:induction false} NextInstantIsLastChosen(b: Birth, es: seq<Event>)
    requires Legal(b) && AllFaultless(es)
    ensures var plan := Run(Born(b), es).plan;
            plan.status != Completed ==>
              && plan.nextIntervalAt == TimePtr(LastChosen(b, es))
              && (plan.nextIntervalAt == None <==> LastChosen(b, es) == 0)
              && (LastChosen(b, es) != 0 ==> plan.nextIntervalAt == Some(LastChosen(b, es)))
  {
    if es != [] {
      var before, e := es[..|es| - 1], es[|es| - 1];
      NextInstantIsLastChosen(b, before);
      ReachedIsStrict(b, before);
      StepChooses(Run(Born(b), before), e);
      if Run(Born(b), before).plan.status == Completed {
        CompletedStep(Run(Born(b), before), e);
      }
    }
  }

  /** None of the instants the operation may schedule is the zero time, which is stored as missing. */
  predicate AvoidsZeroTime(e: Event, intervalMinutes: int) {
    match e
    case DoPause(_, _) => true
    case DoResume(now, _) => now != 0
    case DoAdvance(call) =>
      call.now + IntervalDuration(intervalMinutes) != 0 && StartOfNextUtcDay(call.now) != 0
  }

  lemma {:induction false} LastChosenAvoidsZero(b: Birth, es: seq<Event>)
    requires Legal(b) && Born(b).plan.nextIntervalAt.Some?
    requires forall i :: 0 <= i < |es| ==> AvoidsZeroTime(es[i], b.command.intervalMinutes)
    ensures LastChosen(b, es) != 0
  {
    if es != [] {
      var before := es[..|es| - 1];
      LastChosenAvoidsZero(b, before);
      RunKeepsSettings(Born(b), before);
      assert AvoidsZeroTime(es[|es| - 1], Run(Born(b), before).plan.intervalMinutes);
    }
  }

  /**
    A plan that is not completed always has a next instant, provided it was created with one and the
    zero time is never scheduled; the interval may have either sign.
  */
  lemma NextInstantExists(b: Birth, es: seq<Event>)
    requires Legal(b) && AllFaultless(es)
    requires forall i :: 0 <= i < |es| ==> AvoidsZeroTime(es[i], b.command.intervalMinutes)
    requires Born(b).plan.nextIntervalAt.Some?
    ensures var plan := Run(Born(b), es).plan;
            plan.status != Completed ==> plan.nextIntervalAt.Some?
  {
    NextInstantIsLastChosen(b, es);
    LastChosenAvoidsZero(b, es);
  }

  // ---------------------------------------------------------------- daily limit

  /**
    For every UTC day of every run, at any clock readings: the attempts recorded for the day never
    exceed the daily limit, whatever store writes fail.
  */
  lemma DailyLimit(b: Birth, es: seq<Event>, day: int)
    requires Legal(b) && b.command.maxPerDay.Some?
    ensures AttemptedOn(Run(Born(b), es).advances, day) <= Max(0, b.command.maxPerDay.value)
    ensures AttemptedOn(Run(Born(b), es).advances, day)
            == AttemptedWithin(Run(Born(b), es).advances, day * 86_400_000_000_000, (day + 1) * 86_400_000_000_000)
  {
    CreatedIsStrict(b.command, b.targets, b.stamps, b.now);
    DaysAreAccounted(Born(b), es, day);
    RunKeepsSettings(Born(b), es);
  }

  /** The same for 24 hours from any midnight, that is from any multiple of 24 hours. */
  lemma DailyLimitFrom(b: Birth, es: seq<Event>, midnight: Instant)
    requires Legal(b) && b.command.maxPerDay.Some? && midnight % 86_400_000_000_000 == 0
    ensures AttemptedWithin(Run(Born(b), es).advances, midnight, midnight + 86_400_000_000_000)
            <= Max(0, b.command.maxPerDay.value)
  {
    DailyLimit(b, es, midnight / 86_400_000_000_000);
  }

  /** An advance that loses neither an update nor its row; any other write may fail. */
  ghost predicate LeavesItsRow(e: Event) {
    e.DoAdvance? ==> e.call.faults.insert != Lost && forall i :: e.call.faults.update(i) == Stored
  }

  lemma StepRecordsAll(r: PlanRecord, e: Event)
    requires LeavesItsRow(e)
    ensures Step(r, e).trace.unrecorded == r.trace.unrecorded
  {
    if e.DoAdvance? {
      var stop := StopAt(e.call.world, SendCapacity(r.plan, RemainingToday(r, e.call.now)),
                         |PendingRows(r.recipients)|, 0);
      FirstFaultIs(e.call.faults.update, stop, 0);
    }
  }

  lemma {:induction false} RunRecordsAll(r: PlanRecord, es: seq<Event>)
    requires forall i :: 0 <= i < |es| ==> LeavesItsRow(es[i])
    ensures Run(r, es).trace.unrecorded == r.trace.unrecorded
  {
    if es != [] {
      RunRecordsAll(r, es[..|es| - 1]);
      StepRecordsAll(Run(r, es[..|es| - 1]), es[|es| - 1]);
    }
  }

  /** As long as advances leave their rows, the limit holds for the messages themselves. */
  lemma DailyMailLimit(b: Birth, es: seq<Event>, day: int)
    requires Legal(b) && b.command.maxPerDay.Some?
    requires forall i :: 0 <= i < |es| ==> LeavesItsRow(es[i])
    ensures MailOn(Run(Born(b), es).trace.mail, day) <= Max(0, b.command.maxPerDay.value)
  {
    DailyLimit(b, es, day);
    DailyMailUnderFaults(b, es, day);
    RunRecordsAll(Born(b), es);
  }

  /**
    With faults, the messages of a day are those recorded, which respect the limit, and those of
    advances whose row was never stored, which escape it.
  */
  lemma DailyMailUnderFaults(b: Birth, es: seq<Event>, day: int)
    requires Legal(b)
    ensures var r := Run(Born(b), es);
            MailOn(r.trace.mail, day) == AttemptedOn(r.advances, day) + MailOn(r.trace.unrecorded, day)
  {
    CreatedIsStrict(b.command, b.targets, b.stamps, b.now);
    DaysAreAccounted(Born(b), es, day);
  }

  /** One advance lets no more than its own capacity escape. */
  lemma LeakPerAdvance(r: PlanRecord, call: Call)
    ensures |AdvancePlan(r, call).record.trace.unrecorded|
            <= |r.trace.unrecorded| + Max(0, SendCapacity(r.plan, RemainingToday(r, call.now)))
  {
    var n := BatchOf(r, call).processed;
    BatchAttempts(call.world, SendCapacity(r.plan, RemainingToday(r, call.now)),
                  |PendingRows(r.recipients)|, call.faults.update);
    MailForLength(PendingRows(r.recipients), call.world, call.now, n);
    BatchRecords(r, call);
  }

  lemma {:induction false} MailForLength(pend: seq<Recipient>, world: World, now: Instant, n: nat)
    requires n <= |pend|
    ensures |MailFor(pend, world, now, n)| == Attempts(world, n)
  {
    if n > 0 {
      MailForLength(pend, world, now, n - 1);
    }
  }

  lemma {:induction false} EverybodyReachable(world: World, n: nat)
    requires forall i: nat :: Reachable(world(i))
    ensures Attempts(world, n) == n
  {
    if n > 0 {
      EverybodyReachable(world, n - 1);
    }
  }

  /** When everybody is reachable and no update fails, a batch is as large as its capacity allows. */
  lemma EagerBatch(world: World, cap: int, m: nat, update: nat -> Write)
    requires forall i: nat :: Reachable(world(i)) && update(i) == Stored
    ensures RunBatch(world, cap, m, update) == Batch(Max(0, Min(cap, m)), false)
  {
    var stop := StopAt(world, cap, m, 0);
    StopAtBelow(world, cap, m, 0);
    EverybodyReachable(world, stop);
    if stop > 0 {
      EverybodyReachable(world, stop - 1);
    }
    FirstFaultIs(update, stop, 0);
  }

  lemma FullBatch(r: PlanRecord, call: Call)
    requires forall i: nat :: Reachable(call.world(i))
    requires forall i: nat :: call.faults.update(i) == Stored
    requires var cap := SendCapacity(r.plan, RemainingToday(r, call.now));
             0 <= cap <= |PendingRows(r.recipients)|
    ensures BatchOf(r, call) == Batch(SendCapacity(r.plan, RemainingToday(r, call.now)), false)
  {
    EagerBatch(call.world, SendCapacity(r.plan, RemainingToday(r, call.now)), |PendingRows(r.recipients)|,
               call.faults.update);
  }

  /** A batch whose advance row is lost sends its messages but leaves plan and advances as they were. */
  lemma LostRowForgets(r: PlanRecord, call: Call, n: nat)
    requires BatchOf(r, call) == Batch(n, false) && n > 0 && call.faults.insert == Lost
    ensures var after := AdvanceBatch(r, call).record;
            && after.advances == r.advances && after.plan == r.plan
            && after.recipients == LoopRecipients(r, call, Batch(n, false))
            && after.trace.mail == r.trace.mail + LoopMail(r, call, n)
  {
  }

  lemma FullBatchMails(r: PlanRecord, call: Call, n: nat, day: int)
    requires BatchOf(r, call) == Batch(n, false) && DayOf(call.now) == day
    requires forall i: nat :: Reachable(call.world(i))
    ensures MailOn(AdvanceBatch(r, call).record.trace.mail, day) == MailOn(r.trace.mail, day) + n
  {
    BatchTrace(r, call);
    MailForOn(PendingRows(r.recipients), call.world, call.now, n, day);
    MailOnConcat(r.trace.mail, LoopMail(r, call, n), day);
    EverybodyReachable(call.world, n);
  }

  /** How many messages the next advance can submit at most. */
  function NextBatchAtMost(r: PlanRecord, now: Instant): int {
    Max(0, Min(SendCapacity(r.plan, RemainingToday(r, now)), |PendingRows(r.recipients)|))
  }

  lemma AdvanceMailsAtMost(r: PlanRecord, call: Call, day: int)
    ensures MailOn(AdvancePlan(r, call).record.trace.mail, day)
            <= MailOn(r.trace.mail, day) + if DayOf(call.now) == day then NextBatchAtMost(r, call.now) else 0
  {
    var pend, n := PendingRows(r.recipients), BatchOf(r, call).processed;
    BatchAttempts(call.world, SendCapacity(r.plan, RemainingToday(r, call.now)), |pend|, call.faults.update);
    AttemptsWithin(call.world, n);
    MailForOn(pend, call.world, call.now, n, day);
    MailOnConcat(r.trace.mail, LoopMail(r, call, n), day);
    BatchTrace(r, call);
  }

  lemma {:induction false} AttemptsWithin(world: World, n: nat)
    ensures Attempts(world, n) <= n
  {
    if n > 0 {
      AttemptsWithin(world, n - 1);
    }
  }

  /** A manual advance on the day, everybody being reachable. */
  function EagerCall(day: int): Call {
    Call(true, day * DAY, day * DAY, (i: nat) => Reply([Contact("x", true, None)], true, ""),
         Faults((i: nat) => Stored, Stored, Stored))
  }

  lemma EagerCallMails(r: PlanRecord, day: int)
    requires r.plan.status != Completed
    ensures MailOn(AdvancePlan(r, EagerCall(day)).record.trace.mail, day)
            == MailOn(r.trace.mail, day) + NextBatchAtMost(r, day * DAY)
  {
    var call := EagerCall(day);
    InDay(call.now, day);
    var m, cap := |PendingRows(r.recipients)|, SendCapacity(r.plan, RemainingToday(r, call.now));
    if m > 0 && RemainingToday(r, call.now) != Some(0) {
      EagerBatch(call.world, cap, m, call.faults.update);
      FullBatchMails(r, call, Max(0, Min(cap, m)), day);
    }
  }

  /**
    When a caller may advance the plan without risk: no advance on this day takes the messages of
    the day over the limit, whatever is answered and whatever fails, if and only if those already
    submitted and the largest batch the recorded attempts leave room for fit into it.
  */
  lemma NextAdvanceRespectsLimitIff(r: PlanRecord, limit: int, day: int)
    requires r.plan.status != Completed && r.plan.maxPerDay == Some(limit)
    ensures (forall call: Call :: DayOf(call.now) == day ==>
               MailOn(AdvancePlan(r, call).record.trace.mail, day) <= limit)
            <==> MailOn(r.trace.mail, day)
                 + Max(0, Min(Min(r.plan.maxPerInterval, limit - AttemptedOn(r.advances, day)),
                              |PendingRows(r.recipients)|)) <= limit
  {
    EagerCallMails(r, day);
    InDay(day * DAY, day);
    forall call: Call | DayOf(call.now) == day
      ensures MailOn(AdvancePlan(r, call).record.trace.mail, day)
              <= MailOn(r.trace.mail, day) + NextBatchAtMost(r, day * DAY)
    {
      AdvanceMailsAtMost(r, call, day);
    }
    assert DayOf(EagerCall(day).now) == day;
  }

  /**
    A lost advance row breaks the daily limit on messages: on a day with nothing recorded, a lost
    advance and a repeated one send twice the limit.
  */
  lemma LostRowBreaksDailyLimit(r: PlanRecord, lost: Call, again: Call, limit: nat, day: int)
    requires Safe(r) && r.plan.status != Completed
    requires r.plan.maxPerDay == Some(limit) && 1 <= limit <= r.plan.maxPerInterval
    requires AttemptedOn(r.advances, day) == 0 && |PendingRows(r.recipients)| >= 2 * limit
    requires DayOf(lost.now) == day && DayOf(again.now) == day && lost.manual && again.manual
    requires forall i: nat :: Reachable(lost.world(i)) && Reachable(again.world(i))
    requires forall i: nat :: lost.faults.update(i) == Stored && again.faults.update(i) == Stored
    requires lost.faults.insert == Lost
    ensures MailOn(AdvancePlan(AdvancePlan(r, lost).record, again).record.trace.mail, day)
            == MailOn(r.trace.mail, day) + 2 * limit
  {
    FullBatch(r, lost);
    FullBatchMails(r, lost, limit, day);
    LostRowForgets(r, lost, limit);
    LoopKeepsRowsSafe(r, lost, Batch(limit, false));
    var r1 := AdvanceBatch(r, lost).record;
    assert AdvancePlan(r, lost).record == r1;
    assert |PendingRows(r1.recipients)| == |PendingRows(r.recipients)| - limit;
    FullBatch(r1, again);
    FullBatchMails(r1, again, limit, day);
    assert AdvancePlan(r1, again) == AdvanceBatch(r1, again);
  }

  // ---------------------------------------------------------------- one message per account

  ghost function MailsToAccount(rows: seq<Recipient>, mail: seq<Mail>, account: nat): nat {
    if mail == [] then 0
    else
      var last := mail[|mail| - 1];
      MailsToAccount(rows, mail[..|mail| - 1], account)
      + if exists i :: 0 <= i < |rows| && rows[i].id == last.recipientId && rows[i].accountId == account then 1 else 0
  }

  lemma {:induction false} AccountIsOneRow(rows: seq<Recipient>, mail: seq<Mail>, i: nat)
    requires DistinctAccounts(rows) && DistinctIds(rows) && i < |rows|
    ensures MailsToAccount(rows, mail, rows[i].accountId) == MailsTo(mail, rows[i].id)
  {
    if mail != [] {
      AccountIsOneRow(rows, mail[..|mail| - 1], i);
    }
  }

  lemma {:induction false} NoRowNoMail(rows: seq<Recipient>, mail: seq<Mail>, account: nat)
    requires forall i :: 0 <= i < |rows| ==> rows[i].accountId != account
    ensures MailsToAccount(rows, mail, account) == 0
  {
    if mail != [] {
      NoRowNoMail(rows, mail[..|mail| - 1], account);
    }
  }

  lemma StepKeepsAccounts(r: PlanRecord, e: Event)
    requires Safe(r) && DistinctAccounts(r.recipients)
    ensures DistinctAccounts(Step(r, e).recipients)
  {
    StepKeepsLength(r, e);
    forall i | 0 <= i < |r.recipients|
      ensures Step(r, e).recipients[i].accountId == r.recipients[i].accountId
    {
      StepRowAt(r, e, i);
    }
  }

  lemma {:induction false} RunKeepsAccounts(r: PlanRecord, es: seq<Event>)
    requires Safe(r) && DistinctAccounts(r.recipients)
    ensures DistinctAccounts(Run(r, es).recipients)
  {
    if es != [] {
      RunKeepsAccounts(r, es[..|es| - 1]);
      RunKeepsSafe(r, es[..|es| - 1]);
      StepKeepsAccounts(Run(r, es[..|es| - 1]), es[|es| - 1]);
    }
  }

  lemma ReachedTrace(b: Birth, es: seq<Event>)
    requires Legal(b) && AllFaultless(es)
    ensures var r := Run(Born(b), es);
            r.trace.failedUpdates == [] && MailExact(r.recipients, r.trace.mail)
  {
    ReachedIsStrict(b, es);
  }

  /**
    A plan never mails an account twice; the submissions are exactly the sent and failed rows, in
    row order.
  */
  lemma AtMostOneMailPerAccount(b: Birth, es: seq<Event>, account: nat)
    requires Legal(b) && AllFaultless(es)
    ensures var r := Run(Born(b), es);
            MailsToAccount(r.recipients, r.trace.mail, account) <= 1 && MailExact(r.recipients, r.trace.mail)
  {
    var r := Run(Born(b), es);
    ReachedTrace(b, es);
    ReachedRows(b, es);
    ReachedSendsBounded(b, es);
    if i :| 0 <= i < |r.recipients| && r.recipients[i].accountId == account {
      AccountIsOneRow(r.recipients, r.trace.mail, i);
    } else {
      NoRowNoMail(r.recipients, r.trace.mail, account);
    }
  }

  /** With faults, the messages to an account are the one its row tells of and the forgotten ones. */
  lemma MailPerAccountUnderFaults(b: Birth, es: seq<Event>, i: nat)
    requires Legal(b) && i < |Run(Born(b), es).recipients|
    ensures var r := Run(Born(b), es);
            MailsToAccount(r.recipients, r.trace.mail, r.recipients[i].accountId)
            == Submitted(r.recipients[i]) + Forgotten(Born(b), es, i)
    ensures var r := Run(Born(b), es);
            MailsToAccount(r.recipients, r.trace.mail, r.recipients[i].accountId)
            <= FailedUpdatesOf(r, r.recipients[i].id) + if Finished(r.recipients[i]) then 1 else 0
  {
    ReachedRows(b, es);
    ReachedSendsBounded(b, es);
    NobodyMailedYet(b, i);
    SendsAreExact(Born(b), es, i);
    AccountIsOneRow(Run(Born(b), es).recipients, Run(Born(b), es).trace.mail, i);
  }

  /** The rows of any reached plan, whatever failed. */
  lemma ReachedRows(b: Birth, es: seq<Event>)
    requires Legal(b)
    ensures Safe(Born(b)) && |Run(Born(b), es).recipients| == |Born(b).recipients|
    ensures DistinctIds(Run(Born(b), es).recipients) && DistinctAccounts(Run(Born(b), es).recipients)
  {
    CreatedIsStrict(b.command, b.targets, b.stamps, b.now);
    FinishedNeverReopens(Born(b), es);
    RunKeepsSafe(Born(b), es);
    RunKeepsAccounts(Born(b), es);
  }

  lemma ReachedSendsBounded(b: Birth, es: seq<Event>)
    requires Legal(b)
    ensures SendsBounded(Run(Born(b), es))
  {
    CreatedIsStrict(b.command, b.targets, b.stamps, b.now);
    SendsAreBounded(Born(b), es);
  }

  lemma NobodyMailedYet(b: Birth, i: nat)
    requires Legal(b) && i < |Born(b).recipients|
    ensures Submitted(Born(b).recipients[i]) == 0 && SendsTo(Born(b), Born(b).recipients[i].id) == 0
  {
    FreshRowsAre(b.targets, b.stamps);
  }

  /** The next advance can submit at most one message to row i, none if the row is finished. */
  lemma AdvanceSendsAtMostOne(r: PlanRecord, call: Call, i: nat)
    requires Safe(r) && i < |r.recipients|
    ensures SendsTo(AdvancePlan(r, call).record, r.recipients[i].id)
            <= SendsTo(r, r.recipients[i].id)
               + if Finished(r.recipients[i]) || NextBatchAtMost(r, call.now) == 0 then 0 else 1
  {
    BatchSendsTo(r, call, i);
    PendingSuffix(r.recipients);
  }

  /** Only the recipient at position `at` of the pending list can be reached. */
  function OnlyWorld(at: nat): World {
    (i: nat) => Reply(if i == at then [Contact("x", true, None)] else [], true, "")
  }

  lemma {:induction false} NobodyBefore(at: nat, n: nat)
    requires n <= at
    ensures Attempts(OnlyWorld(at), n) == 0
  {
    if n > 0 {
      NobodyBefore(at, n - 1);
    }
  }

  /** Without failing updates such an advance gets as far as that recipient. */
  lemma OnlyBatch(at: nat, cap: int, m: nat, update: nat -> Write)
    requires at < m && cap > 0 && forall i: nat :: update(i) == Stored
    ensures RunBatch(OnlyWorld(at), cap, m, update).processed > at
  {
    var stop := StopAt(OnlyWorld(at), cap, m, 0);
    StopAtBelow(OnlyWorld(at), cap, m, 0);
    FirstFaultIs(update, stop, 0);
    if stop <= at {
      NobodyBefore(at, stop);
    }
  }

  /** A manual advance on the day that can reach nobody but the recipient at that position. */
  function OnlyCall(day: int, at: nat): Call {
    EagerCall(day).(world := OnlyWorld(at))
  }

  lemma OnlyCallHandles(r: PlanRecord, day: int, at: nat)
    requires r.plan.status != Completed && at < |PendingRows(r.recipients)| && NextBatchAtMost(r, day * DAY) > 0
    ensures AdvancePlan(r, OnlyCall(day, at)) == AdvanceBatch(r, OnlyCall(day, at))
    ensures BatchOf(r, OnlyCall(day, at)).processed > at
  {
    OnlyBatch(at, SendCapacity(r.plan, RemainingToday(r, day * DAY)), |PendingRows(r.recipients)|,
              OnlyCall(day, at).faults.update);
  }

  /** A pending row can be the one that the next advance writes to. */
  lemma SomeAdvanceSends(r: PlanRecord, day: int, at: nat, i: nat)
    requires DistinctIds(r.recipients) && r.plan.status != Completed
    requires i == FirstPending(r.recipients) + at < |r.recipients| && NextBatchAtMost(r, day * DAY) > 0
    ensures SendsTo(AdvancePlan(r, OnlyCall(day, at)).record, r.recipients[i].id)
            == SendsTo(r, r.recipients[i].id) + 1
  {
    OnlyCallHandles(r, day, at);
    OnlyCallSends(r, OnlyCall(day, at), at, i);
  }

  lemma OnlyCallSends(r: PlanRecord, call: Call, at: nat, i: nat)
    requires DistinctIds(r.recipients) && i == FirstPending(r.recipients) + at < |r.recipients|
    requires Reachable(call.world(at)) && BatchOf(r, call).processed > at
    ensures SendsTo(AdvanceBatch(r, call).record, r.recipients[i].id) == SendsTo(r, r.recipients[i].id) + 1
  {
    BatchSendsTo(r, call, i);
  }

  /**
    When a caller may advance the plan without risk to a recipient: no advance on this day makes the
    messages to it more than one, whatever is answered and whatever fails, if and only if none was
    submitted yet, or one was and its row says so or nobody at all can be handled.
  */
  lemma NextAdvanceMailsOnceIff(r: PlanRecord, day: int, i: nat)
    requires Safe(r) && r.plan.status != Completed && i < |r.recipients|
    ensures (forall call: Call :: DayOf(call.now) == day ==>
               SendsTo(AdvancePlan(r, call).record, r.recipients[i].id) <= 1)
            <==> SendsTo(r, r.recipients[i].id) == 0
                 || (SendsTo(r, r.recipients[i].id) == 1
                     && (Finished(r.recipients[i]) || NextBatchAtMost(r, day * DAY) == 0))
  {
    InDay(day * DAY, day);
    forall call: Call | DayOf(call.now) == day
      ensures SendsTo(AdvancePlan(r, call).record, r.recipients[i].id)
              <= SendsTo(r, r.recipients[i].id)
                 + if Finished(r.recipients[i]) || NextBatchAtMost(r, day * DAY) == 0 then 0 else 1
    {
      AdvanceSendsAtMostOne(r, call, i);
    }
    if !Finished(r.recipients[i]) && NextBatchAtMost(r, day * DAY) > 0 {
      SomeAdvanceSends(r, day, i - FirstPending(r.recipients), i);
    }
    SendsNeverShrink(r, EagerCall(day), i);
  }

  lemma SendsNeverShrink(r: PlanRecord, call: Call, i: nat)
    requires Safe(r) && i < |r.recipients|
    ensures SendsTo(AdvancePlan(r, call).record, r.recipients[i].id) >= SendsTo(r, r.recipients[i].id)
  {
    BatchSendsTo(r, call, i);
  }

  /**
    An account is mailed at most once if and only if no message to it was forgotten, or a single one
    was and no later advance submitted another.
  */
  lemma AtMostOneMailIff(b: Birth, es: seq<Event>, i: nat)
    requires Legal(b) && i < |Run(Born(b), es).recipients|
    ensures var r := Run(Born(b), es);
            MailsToAccount(r.recipients, r.trace.mail, r.recipients[i].accountId) <= 1
            <==> Forgotten(Born(b), es, i) == 0
                 || (Forgotten(Born(b), es, i) == 1 && r.recipients[i].status in {Pending, Skipped})
  {
    MailPerAccountUnderFaults(b, es, i);
  }
}
