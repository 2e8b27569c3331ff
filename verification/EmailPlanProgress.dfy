/**
  Progress: why an accepted automatic advance always deals with somebody, what a batch takes from
  the pending list, and after how many advances a plan is complete.
*/
module EmailPlanProgress {
  import opened Basics
  import opened Database
  import opened UtcClock
  import opened EmailPlanModel
  import opened EmailPlanSafety
  import opened EmailPlanFaults
  import opened EmailPlanRuns
  import opened EmailPlanTheorems

  // ---------------------------------------------------------------- what a batch takes

  /**
    The send loop takes the shortest prefix of the pending list that holds `capacity` reachable
    recipients, or the whole list.
  */
  lemma BatchIsShortestPrefix(r: PlanRecord, call: Call)
    ensures var n, m := Reach(r, call), |PendingRows(r.recipients)|;
            var cap := SendCapacity(r.plan, RemainingToday(r, call.now));
            && n <= m
            && (n < m ==> Attempts(call.world, n) >= cap)
            && (forall j :: 0 <= j < n ==> Attempts(call.world, j) < cap)
  {
    StopAtBelow(call.world, SendCapacity(r.plan, RemainingToday(r, call.now)), |PendingRows(r.recipients)|, 0);
  }

  /** An accepted advance that leaves somebody pending attempts exactly its capacity. */
  lemma LeavingWorkMeansFullCapacity(r: PlanRecord, call: Call)
    requires Safe(r) && NoFaults(call.faults) && Rejection(r.plan, call) == None
    requires RemainingToday(r, call.now) != Some(0) && r.plan.maxPerInterval >= 0
    ensures var after := AdvancePlan(r, call).record;
            PendingRows(after.recipients) != [] ==>
              Attempts(call.world, Reach(r, call)) == SendCapacity(r.plan, RemainingToday(r, call.now))
  {
    FaultlessAdvance(r, call);
    CleanPending(r, call);
    BatchIsShortestPrefix(r, call);
    var n := Reach(r, call);
    if n > 0 {
      assert Attempts(call.world, n - 1) < SendCapacity(r.plan, RemainingToday(r, call.now));
    }
  }

  /**
    An accepted advance shrinks the pending list if and only if the interval quota is positive and
    the day's budget is not spent.
  */
  lemma AdvanceShrinksIff(r: PlanRecord, call: Call)
    requires Safe(r) && LifeCycle(r) && NoFaults(call.faults) && Rejection(r.plan, call) == None
    ensures FirstPending(AdvancePlan(r, call).record.recipients) > FirstPending(r.recipients)
            <==> r.plan.maxPerInterval > 0
                 && (r.plan.maxPerDay.Some? ==> AttemptedOn(r.advances, DayOf(call.now)) < r.plan.maxPerDay.value)
  {
    FaultlessAdvance(r, call);
    ReachesSomebodyIff(r, call);
    if CleanAdvance(r, call) == CleanBatch(r, call) {
      CleanFirstPending(r, call);
    }
  }

  lemma ReachesSomebodyIff(r: PlanRecord, call: Call)
    ensures Reach(r, call) > 0
            <==> PendingRows(r.recipients) != [] && SendCapacity(r.plan, RemainingToday(r, call.now)) > 0
  {
    BatchIsShortestPrefix(r, call);
  }

  // ---------------------------------------------------------------- spent days

  function ClockOf(e: Event): Instant {
    match e
    case DoPause(now, _) => now
    case DoResume(now, _) => now
    case DoAdvance(call) => call.now
  }

  predicate ManualAdvance(e: Event) {
    e.DoAdvance? && e.call.manual
  }

  /** Fault-free runs whose clock never runs backwards, without manual advances of a paused plan. */
  ghost predicate Orderly(r: PlanRecord, es: seq<Event>) {
    es == [] ||
    (var before, e := es[..|es| - 1], es[|es| - 1];
     && Orderly(r, before)
     && Faultless(e) && ClockOf(e) > 0
     && (before != [] ==> ClockOf(before[|before| - 1]) <= ClockOf(e))
     && (ManualAdvance(e) ==> Run(r, before).plan.status != Paused))
  }

  lemma {:induction false} OrderlyIsFaultless(r: PlanRecord, es: seq<Event>)
    requires Orderly(r, es)
    ensures AllFaultless(es)
  {
    if es != [] {
      OrderlyIsFaultless(r, es[..|es| - 1]);
    }
  }

  /** Quotas of at least one and an interval that is not negative as a time.Duration. */
  predicate Sensible(plan: Plan) {
    && plan.maxPerInterval >= 1
    && (plan.maxPerDay.Some? ==> plan.maxPerDay.value >= 1)
    && IntervalDuration(plan.intervalMinutes) >= 0
  }

  predicate Spent(r: PlanRecord, day: int) {
    r.plan.maxPerDay.Some? && AttemptedOn(r.advances, day) >= r.plan.maxPerDay.value
  }

  predicate WaitsUntil(plan: Plan, t: Instant) {
    plan.status == Completed || (plan.nextIntervalAt.Some? && plan.nextIntervalAt.value >= t)
  }

  /** Once a day's budget is spent the plan waits at least until the following midnight. */
  predicate SpentDayWaits(r: PlanRecord, day: int) {
    Spent(r, day) ==> WaitsUntil(r.plan, (day + 1) * DAY)
  }

  /** No advance has started on a day after `today`. */
  predicate NothingAfter(r: PlanRecord, today: int, day: int) {
    day > today ==> AttemptedOn(r.advances, day) == 0
  }

  lemma NextPlanWaits(plan: Plan, remaining: Option<int>, attempted: int, left: int, call: Call, day: int)
    requires plan.status == Scheduled && IntervalDuration(plan.intervalMinutes) >= 0 && call.now > 0
    requires day <= DayOf(call.now)
    requires day == DayOf(call.now) ==> remaining.Some? && remaining.value <= attempted
    ensures WaitsUntil(NextPlan(plan, remaining, attempted, left, call), (day + 1) * DAY)
  {
    DayWindow(call.now, call.now);
  }

  /** An advance that spends a day's budget leaves the plan waiting for the next midnight. */
  lemma CleanBatchWaits(r: PlanRecord, call: Call, day: int)
    requires r.plan.status == Scheduled && Sensible(r.plan) && call.now > 0
    requires day <= DayOf(call.now) && !Spent(r, DayOf(call.now))
    requires Spent(CleanBatch(r, call), day)
    ensures WaitsUntil(BatchPlan(r, call), (day + 1) * DAY)
  {
    var n := Reach(r, call);
    var counted := if n > 0
                   then r.plan.(advancedIntervals := r.plan.advancedIntervals + 1, lastAdvancedAt := Some(call.later))
                   else r.plan;
    CleanAttemptedOn(r, call, day);
    NextPlanWaits(counted, RemainingToday(r, call.now), Attempts(call.world, n),
                  |PendingRows(r.recipients)| - n, call, day);
  }

  lemma CleanAttemptedOn(r: PlanRecord, call: Call, day: int)
    ensures AttemptedOn(CleanBatch(r, call).advances, day)
            == AttemptedOn(r.advances, day)
               + if DayOf(call.now) == day then Attempts(call.world, Reach(r, call)) else 0
  {
    var n := Reach(r, call);
    if n > 0 {
      AttemptedOnAppend(r.advances, AdvanceRow(r, call, n), day);
    } else {
      assert r.advances + [] == r.advances;
    }
  }

  lemma CleanBatchKeepsWaiting(r: PlanRecord, call: Call, today: int, day: int)
    requires r.plan.status == Scheduled && Sensible(r.plan) && call.now > 0
    requires today <= DayOf(call.now) && NothingAfter(r, today, day)
    requires !Spent(r, DayOf(call.now))
    ensures SpentDayWaits(CleanBatch(r, call), day) && NothingAfter(CleanBatch(r, call), DayOf(call.now), day)
  {
    CleanBatchStartsNothingLater(r, call, today, day);
    if Spent(CleanBatch(r, call), day) {
      SpentByNow(r, call, day);
      CleanBatchWaits(r, call, day);
    }
  }

  lemma SpentByNow(r: PlanRecord, call: Call, day: int)
    requires Sensible(r.plan) && NothingAfter(CleanBatch(r, call), DayOf(call.now), day)
    requires Spent(CleanBatch(r, call), day)
    ensures day <= DayOf(call.now)
  {
  }

  lemma CleanBatchStartsNothingLater(r: PlanRecord, call: Call, today: int, day: int)
    requires today <= DayOf(call.now) && NothingAfter(r, today, day)
    ensures NothingAfter(CleanBatch(r, call), DayOf(call.now), day)
  {
    CleanAttemptedOn(r, call, day);
  }

  lemma StepKeepsWaiting(r: PlanRecord, e: Event, today: int, day: int)
    requires Sensible(r.plan) && Faultless(e) && ClockOf(e) > 0
    requires ManualAdvance(e) ==> r.plan.status != Paused
    requires today <= DayOf(ClockOf(e)) && SpentDayWaits(r, day) && NothingAfter(r, today, day)
    ensures SpentDayWaits(Step(r, e), day) && NothingAfter(Step(r, e), DayOf(ClockOf(e)), day)
  {
    DayWindow(ClockOf(e), ClockOf(e));
    match e {
      case DoAdvance(call) =>
        FaultlessAdvance(r, call);
        if Rejection(r.plan, call) == None && !Spent(r, DayOf(call.now)) {
          CleanBatchKeepsWaiting(r, call, today, day);
        }
      case _ =>
    }
  }

  lemma {:induction false} SpentDaysWait(r: PlanRecord, es: seq<Event>, day: int)
    requires Orderly(r, es) && Sensible(r.plan) && r.advances == []
    ensures SpentDayWaits(Run(r, es), day)
    ensures es != [] ==> NothingAfter(Run(r, es), DayOf(ClockOf(es[|es| - 1])), day)
    ensures es == [] ==> AttemptedOn(Run(r, es).advances, day) == 0
  {
    if es != [] {
      var before, e := es[..|es| - 1], es[|es| - 1];
      SpentDaysWait(r, before, day);
      RunKeepsSettings(r, before);
      var today := if before == [] then DayOf(ClockOf(e)) else DayOf(ClockOf(before[|before| - 1]));
      StepKeepsWaiting(Run(r, before), e, today, day);
    }
  }

  /** A plan that has spent its budget for the 24 hours from some midnight waits for the end of them. */
  lemma SpentPlansWaitForMidnight(b: Birth, es: seq<Event>, midnight: Instant)
    requires Legal(b) && Sensible(Born(b).plan) && Orderly(Born(b), es)
    requires midnight % 86_400_000_000_000 == 0 && b.command.maxPerDay.Some?
    requires AttemptedWithin(Run(Born(b), es).advances, midnight, midnight + 86_400_000_000_000)
             >= b.command.maxPerDay.value
    ensures var plan := Run(Born(b), es).plan;
            plan.status == Completed
            || (plan.nextIntervalAt.Some? && plan.nextIntervalAt.value >= midnight + 86_400_000_000_000)
  {
    var day := midnight / 86_400_000_000_000;
    SpentDaysWait(Born(b), es, day);
    RunKeepsSettings(Born(b), es);
    WaitsForMidnight(Run(Born(b), es), midnight, day, b.command.maxPerDay.value);
  }

  lemma WaitsForMidnight(r: PlanRecord, midnight: Instant, day: int, limit: int)
    requires SpentDayWaits(r, day) && r.plan.maxPerDay == Some(limit)
    requires midnight == day * 86_400_000_000_000
    requires AttemptedWithin(r.advances, midnight, midnight + 86_400_000_000_000) >= limit
    ensures r.plan.status == Completed
            || (r.plan.nextIntervalAt.Some? && r.plan.nextIntervalAt.value >= midnight + 86_400_000_000_000)
  {
  }

  /**
    Every accepted automatic advance of an orderly run has room for at least one message and
    strictly shrinks the pending list, also across pause and resume.
  */
  lemma AutomaticAdvanceProgresses(b: Birth, es: seq<Event>, call: Call)
    requires Legal(b) && Sensible(Born(b).plan)
    requires Orderly(Born(b), es + [DoAdvance(call)]) && !call.manual
    requires Rejection(Run(Born(b), es).plan, call) == None
    ensures var r := Run(Born(b), es);
            && SendCapacity(r.plan, RemainingToday(r, call.now)) >= 1
            && FirstPending(Run(Born(b), es + [DoAdvance(call)]).recipients) > FirstPending(r.recipients)
  {
    var r := Run(Born(b), es);
    var all := es + [DoAdvance(call)];
    assert all[..|all| - 1] == es;
    AcceptedDayIsNotSpent(Born(b), es, call);
    OrderlyIsFaultless(Born(b), es);
    ReachedLifeCycle(b, es);
    RunKeepsSettings(Born(b), es);
    UnspentDayProgresses(r, call);
    RunOneMore(Born(b), es, DoAdvance(call));
  }

  lemma RunOneMore(r: PlanRecord, es: seq<Event>, e: Event)
    ensures Run(r, es + [e]) == Step(Run(r, es), e)
  {
    assert (es + [e])[..|es|] == es;
  }

  lemma UnspentDayProgresses(r: PlanRecord, call: Call)
    requires Safe(r) && LifeCycle(r) && NoFaults(call.faults) && Rejection(r.plan, call) == None
    requires Sensible(r.plan) && !Spent(r, DayOf(call.now))
    ensures SendCapacity(r.plan, RemainingToday(r, call.now)) >= 1
    ensures FirstPending(Step(r, DoAdvance(call)).recipients) > FirstPending(r.recipients)
  {
    AdvanceShrinksIff(r, call);
  }

  lemma AcceptedDayIsNotSpent(r: PlanRecord, es: seq<Event>, call: Call)
    requires Sensible(r.plan) && r.advances == []
    requires Orderly(r, es + [DoAdvance(call)]) && !call.manual
    requires Rejection(Run(r, es).plan, call) == None
    ensures Orderly(r, es) && NoFaults(call.faults)
    ensures !Spent(Run(r, es), DayOf(call.now))
  {
    var all := es + [DoAdvance(call)];
    assert all[..|all| - 1] == es;
    SpentDaysWait(r, es, DayOf(call.now));
    DayWindow(call.now, call.now);
  }

  /** On a spent day an accepted advance only postpones the plan. */
  lemma SpentDayOnlyPostpones(r: PlanRecord, call: Call)
    requires Rejection(r.plan, call) == None && PendingRows(r.recipients) != []
    requires Spent(r, DayOf(call.now)) && call.faults.plan == Stored
    ensures AdvancePlan(r, call) == Outcome(r.(plan := Postponed(r.plan, call.now)), None)
  {
  }

  lemma PausedBatchIsDueAfterInterval(r: PlanRecord, call: Call)
    requires Safe(r) && r.plan.status == Paused && NoFaults(call.faults)
    requires Reach(r, call) < |PendingRows(r.recipients)|
    ensures CleanBatch(r, call).plan.status == Paused
    ensures CleanBatch(r, call).plan.nextIntervalAt == TimePtr(call.now + IntervalDuration(r.plan.intervalMinutes))
    ensures CleanBatch(r, call).plan.maxPerDay == r.plan.maxPerDay
  {
    CleanPending(r, call);
  }

  /**
    The proviso on manual advances is needed: one that spends the day's budget of a paused plan
    leaves the plan due again after the interval, and after a resume an automatic advance is
    accepted although it sends nothing and shrinks nothing.
  */
  lemma PausedManualAdvanceWastesATick(r: PlanRecord, spend: Call, resumeAt: Instant, tick: Call)
    requires Safe(r) && r.plan.status == Paused && r.plan.maxPerDay.Some?
    requires NoFaults(spend.faults) && !tick.manual && NoFaults(tick.faults)
    requires 0 < spend.now <= resumeAt <= tick.now && DayOf(spend.now) == DayOf(tick.now)
    requires IntervalDuration(r.plan.intervalMinutes) >= 0
    requires spend.now + IntervalDuration(r.plan.intervalMinutes) <= tick.now
    requires Reach(r, spend) < |PendingRows(r.recipients)|
    requires AttemptedOn(r.advances, DayOf(spend.now)) + Attempts(spend.world, Reach(r, spend))
             >= r.plan.maxPerDay.value
    ensures var r2 := Resume(CleanBatch(r, spend), resumeAt, Stored).record;
            && Rejection(r2.plan, tick) == None
            && AdvancePlan(r2, tick) == Outcome(r2.(plan := Postponed(r2.plan, tick.now)), None)
  {
    var spent := CleanBatch(r, spend);
    PausedBatchIsDueAfterInterval(r, spend);
    CleanAttemptedOn(r, spend, DayOf(spend.now));
    CleanPending(r, spend);
    SpentDayOnlyPostpones(Resume(spent, resumeAt, Stored).record, tick);
  }

  // ---------------------------------------------------------------- bounded completion

  function AcceptedAdvances(r: PlanRecord, es: seq<Event>): nat {
    if es == [] then 0
    else
      var before, e := es[..|es| - 1], es[|es| - 1];
      AcceptedAdvances(r, before)
      + if Accepts(Run(r, before), e) then 1 else 0
  }

  /** Without a daily limit an accepted advance takes at least its quota, or everything. */
  lemma AcceptedTakesQuota(r: PlanRecord, call: Call)
    requires Safe(r) && LifeCycle(r) && NoFaults(call.faults)
    requires Rejection(r.plan, call) == None && r.plan.maxPerDay == None
    ensures var after := AdvancePlan(r, call).record;
            after.plan.status == Completed
            || FirstPending(after.recipients) >= FirstPending(r.recipients) + r.plan.maxPerInterval
  {
    FaultlessAdvance(r, call);
    CleanFirstPending(r, call);
    CleanStatus(r, call);
    BatchIsShortestPrefix(r, call);
    AttemptsWithin(call.world, Reach(r, call));
  }

  lemma StepNeverUnfinishes(r: PlanRecord, e: Event)
    requires Safe(r)
    ensures FirstPending(Step(r, e).recipients) >= FirstPending(r.recipients)
  {
    StepKeepsFinishedRows(r, e);
    StepKeepsSafe(r, e);
  }

  predicate Accepts(r: PlanRecord, e: Event) {
    e.DoAdvance? && Rejection(r.plan, e.call) == None
  }

  lemma StepPays(r: PlanRecord, e: Event)
    requires Safe(r) && LifeCycle(r) && Faultless(e) && r.plan.maxPerDay == None
    ensures var after := Step(r, e);
            || after.plan.status == Completed
            || FirstPending(after.recipients)
               >= FirstPending(r.recipients) + if Accepts(r, e) then r.plan.maxPerInterval else 0
  {
    StepNeverUnfinishes(r, e);
    if Accepts(r, e) {
      AcceptedTakesQuota(r, e.call);
    }
  }

  lemma SmallerFactor(m: int, a: int, c: int)
    requires m >= 1 && m * a < m * c
    ensures a < c
  {
  }

  /** The quota m taken n times. */
  function Quotas(m: int, n: nat): int {
    if n == 0 then 0 else Quotas(m, n - 1) + m
  }

  lemma {:induction false} QuotasAre(m: int, n: nat)
    ensures Quotas(m, n) == m * n
  {
    if n > 0 {
      QuotasAre(m, n - 1);
      assert m * n == m * (n - 1) + m;
    }
  }

  /** After `accepted` advances with quota m: complete, or m recipients dealt with for each of them. */
  ghost predicate Paid(r: PlanRecord, m: int, accepted: nat) {
    PaidFor(r.plan.status == Completed, FirstPending(r.recipients), |r.recipients|, m, accepted)
  }

  ghost predicate PaidFor(complete: bool, handled: int, all: int, m: int, accepted: nat) {
    && (complete || handled >= Quotas(m, accepted))
    && (accepted >= 1 ==> Quotas(m, accepted - 1) < all)
  }

  lemma PaysOnce(handled: int, complete: bool, more: int, all: int, m: int, accepted: nat)
    requires PaidFor(false, handled, all, m, accepted) && handled < all
    requires complete || more >= handled + m
    ensures PaidFor(complete, more, all, m, accepted + 1)
  {
  }

  lemma PaysNothing(complete: bool, handled: int, later: bool, more: int, all: int, m: int, accepted: nat)
    requires PaidFor(complete, handled, all, m, accepted)
    requires complete ==> later
    requires later || more >= handled
    ensures PaidFor(later, more, all, m, accepted)
  {
  }

  /** What one step does to the numbers that Paid is about. */
  lemma StepCounts(r: PlanRecord, e: Event)
    requires Safe(r) && LifeCycle(r) && Faultless(e) && r.plan.maxPerDay == None
    ensures |Step(r, e).recipients| == |r.recipients|
    ensures Accepts(r, e) ==> r.plan.status != Completed && FirstPending(r.recipients) < |r.recipients|
    ensures r.plan.status == Completed ==> Step(r, e).plan.status == Completed
    ensures Step(r, e).plan.status == Completed
            || FirstPending(Step(r, e).recipients)
               >= FirstPending(r.recipients) + if Accepts(r, e) then r.plan.maxPerInterval else 0
  {
    StepPays(r, e);
    StepKeepsLength(r, e);
    CompletedStays(r, e);
  }

  lemma StepKeepsPaid(r: PlanRecord, after: PlanRecord, pays: bool, m: int, accepted: nat)
    requires |after.recipients| == |r.recipients|
    requires pays ==> r.plan.status != Completed && FirstPending(r.recipients) < |r.recipients|
    requires r.plan.status == Completed ==> after.plan.status == Completed
    requires after.plan.status == Completed
             || FirstPending(after.recipients) >= FirstPending(r.recipients) + if pays then m else 0
    requires Paid(r, m, accepted)
    ensures Paid(after, m, accepted + if pays then 1 else 0)
  {
    var handled, more, all := FirstPending(r.recipients), FirstPending(after.recipients), |r.recipients|;
    if pays {
      PaysOnce(handled, after.plan.status == Completed, more, all, m, accepted);
    } else {
      PaysNothing(r.plan.status == Completed, handled, after.plan.status == Completed, more, all, m, accepted);
    }
  }

  lemma CompletedStays(r: PlanRecord, e: Event)
    ensures r.plan.status == Completed ==> Step(r, e).plan.status == Completed
  {
    if r.plan.status == Completed {
      CompletedStep(r, e);
    }
  }

  lemma ReachedLifeCycle(b: Birth, es: seq<Event>)
    requires Legal(b) && AllFaultless(es)
    ensures Safe(Run(Born(b), es)) && LifeCycle(Run(Born(b), es))
  {
    ReachedIsStrict(b, es);
  }

  lemma NothingToPay(r: PlanRecord, m: int)
    ensures Paid(r, m, 0)
  {
  }

  lemma PaidStep(b: Birth, before: seq<Event>, e: Event, r: PlanRecord, accepted: nat)
    returns (after: PlanRecord, paid: nat)
    requires Legal(b) && AllFaultless(before) && Faultless(e) && b.command.maxPerDay == None
    requires r == Run(Born(b), before) && Paid(r, b.command.maxPerInterval, accepted)
    ensures after == Step(r, e) && paid == accepted + if Accepts(r, e) then 1 else 0
    ensures Paid(after, b.command.maxPerInterval, paid)
  {
    ReachedLifeCycle(b, before);
    RunKeepsSettings(Born(b), before);
    StepCounts(r, e);
    StepKeepsPaid(r, Step(r, e), Accepts(r, e), b.command.maxPerInterval, accepted);
    after, paid := Step(r, e), accepted + if Accepts(r, e) then 1 else 0;
  }

  /** Each accepted advance pays for `quota` recipients until the plan is complete. */
  lemma {:induction false} AdvancesPay(b: Birth, es: seq<Event>) returns (r: PlanRecord, accepted: nat)
    requires Legal(b) && AllFaultless(es) && b.command.maxPerDay == None
    ensures r == Run(Born(b), es) && accepted == AcceptedAdvances(Born(b), es)
    ensures Paid(r, b.command.maxPerInterval, accepted)
  {
    if es == [] {
      r, accepted := Born(b), 0;
      NothingToPay(r, b.command.maxPerInterval);
    } else {
      var before, e := es[..|es| - 1], es[|es| - 1];
      r, accepted := AdvancesPay(b, before);
      r, accepted := PaidStep(b, before, e, r, accepted);
    }
  }

  function CeilDiv(n: nat, m: nat): nat
    requires m >= 1
  {
    (n + m - 1) / m
  }

  lemma CeilDivIs(n: nat, m: nat)
    requires m >= 1
    ensures m * CeilDiv(n, m) >= n
  {
    var q := CeilDiv(n, m);
    assert n + m - 1 == m * q + (n + m - 1) % m;
  }

  lemma PaidMeetsCeiling(r: PlanRecord, m: int, accepted: nat)
    requires m >= 1 && Paid(r, m, accepted)
    requires FirstPending(r.recipients) >= |r.recipients| ==> r.plan.status == Completed
    ensures accepted <= CeilDiv(|r.recipients|, m)
    ensures accepted == CeilDiv(|r.recipients|, m) ==> r.plan.status == Completed
  {
    var q := CeilDiv(|r.recipients|, m);
    CeilDivIs(|r.recipients|, m);
    QuotasAre(m, accepted);
    if accepted >= 1 {
      QuotasAre(m, accepted - 1);
      SmallerFactor(m, accepted - 1, q);
    }
  }

  lemma ReachedFacts(b: Birth, es: seq<Event>)
    requires Legal(b) && AllFaultless(es)
    ensures var r := Run(Born(b), es);
            && |r.recipients| == |b.targets|
            && (FirstPending(r.recipients) >= |r.recipients| ==> r.plan.status == Completed)
  {
    ReachedIsStrict(b, es);
    CreatedIsStrict(b.command, b.targets, b.stamps, b.now);
    FinishedNeverReopens(Born(b), es);
  }

  /**
    With no daily limit and a quota M >= 1, a plan of N recipients accepts at most ceil(N/M)
    advances, and after that many it is complete, whoever is reachable and whatever is accepted.
  */
  lemma CompletesWithinCeiling(b: Birth, es: seq<Event>)
    requires Legal(b) && AllFaultless(es) && b.command.maxPerDay == None && b.command.maxPerInterval >= 1
    ensures AcceptedAdvances(Born(b), es) <= CeilDiv(|b.targets|, b.command.maxPerInterval)
    ensures AcceptedAdvances(Born(b), es) == CeilDiv(|b.targets|, b.command.maxPerInterval)
            ==> Run(Born(b), es).plan.status == Completed
  {
    var r, accepted := AdvancesPay(b, es);
    ReachedFacts(b, es);
    PaidMeetsCeiling(r, b.command.maxPerInterval, accepted);
  }

  // ---------------------------------------------------------------- automatic advances

  predicate AcceptsAutomatic(r: PlanRecord, e: Event) {
    Accepts(r, e) && !e.call.manual
  }

  function AutomaticAdvances(r: PlanRecord, es: seq<Event>): nat {
    if es == [] then 0
    else
      var before, e := es[..|es| - 1], es[|es| - 1];
      AutomaticAdvances(r, before) + if AcceptsAutomatic(Run(r, before), e) then 1 else 0
  }

  lemma OneMoreFinishes(b: Birth, before: seq<Event>, e: Event)
    requires Legal(b) && Sensible(Born(b).plan) && Orderly(Born(b), before + [e])
    ensures FirstPending(Run(Born(b), before + [e]).recipients)
            >= FirstPending(Run(Born(b), before).recipients)
               + if AcceptsAutomatic(Run(Born(b), before), e) then 1 else 0
  {
    RunOneMore(Born(b), before, e);
    if AcceptsAutomatic(Run(Born(b), before), e) {
      AutomaticAdvanceProgresses(b, before, e.call);
    } else {
      ReachedRows(b, before);
      RunKeepsSafe(Born(b), before);
      StepNeverUnfinishes(Run(Born(b), before), e);
    }
  }

  /** Every accepted automatic advance has finished somebody that was not finished before. */
  lemma {:induction false} AutomaticAdvancesFinish(b: Birth, es: seq<Event>)
    requires Legal(b) && Sensible(Born(b).plan) && Orderly(Born(b), es)
    ensures AutomaticAdvances(Born(b), es) <= FirstPending(Run(Born(b), es).recipients)
  {
    if es != [] {
      var before, e := es[..|es| - 1], es[|es| - 1];
      AutomaticAdvancesFinish(b, before);
      assert es == before + [e];
      OneMoreFinishes(b, before, e);
    }
  }

  /**
    With or without a daily limit, and whatever pauses, resumes and manual advances lie between, an
    orderly run accepts at most as many automatic advances as the plan has recipients.
  */
  lemma AutomaticAdvancesAreBounded(b: Birth, es: seq<Event>)
    requires Legal(b) && Sensible(Born(b).plan) && Orderly(Born(b), es)
    ensures AutomaticAdvances(Born(b), es) <= |b.targets|
    ensures AutomaticAdvances(Born(b), es) == |b.targets| ==> Run(Born(b), es).plan.status == Completed
  {
    AutomaticAdvancesFinish(b, es);
    OrderlyIsFaultless(Born(b), es);
    ReachedFacts(b, es);
  }
}
