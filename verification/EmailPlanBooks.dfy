/**
  What is left of the numbering of advances and of their attribution to recipients when any store
  write may fail: numbers can repeat but stay in order, and what an advance row does not tell of is
  counted by the run.
*/
module EmailPlanBooks {
  import opened Basics
  import opened Database
  import opened EmailPlanModel
  import opened EmailPlanSafety
  import opened EmailPlanFaults
  import opened EmailPlanRuns
  import opened EmailPlanTheorems

  // ---------------------------------------------------------------- one operation

  /** The operation stores an advance row. */
  predicate Records(r: PlanRecord, e: Event) {
    Sends(r, e) && !BatchOf(r, e.call).broken && BatchOf(r, e.call).processed > 0 && e.call.faults.insert != Lost
  }

  /** It stores the row, but not the plan that would have counted it. */
  predicate Uncounts(r: PlanRecord, e: Event) {
    Records(r, e) && (e.call.faults.insert == Unacknowledged || e.call.faults.plan == Lost)
  }

  lemma StepRecords(r: PlanRecord, e: Event)
    ensures Step(r, e).advances
            == r.advances + if Records(r, e) then [AdvanceRow(r, e.call, BatchOf(r, e.call).processed)] else []
    ensures Step(r, e).plan.advancedIntervals
            == r.plan.advancedIntervals + if Records(r, e) && !Uncounts(r, e) then 1 else 0
  {
    assert r.advances + [] == r.advances;
  }

  // ---------------------------------------------------------------- numbers

  /** Numbers start at 1 and have no gaps, but may repeat; the plan counts up to the last one or just below. */
  ghost predicate NumbersInSteps(advances: seq<Advance>, count: int) {
    && (forall k :: 1 <= k < |advances| ==>
          advances[k - 1].intervalNumber <= advances[k].intervalNumber <= advances[k - 1].intervalNumber + 1)
    && if advances == [] then count == 0
       else advances[0].intervalNumber == 1
            && count <= advances[|advances| - 1].intervalNumber <= count + 1
  }

  predicate AddsUp(a: Advance) {
    a.attempted == a.sent + a.failed && a.attempted + a.skipped > 0
  }

  ghost predicate AllAddUp(advances: seq<Advance>) {
    forall k :: 0 <= k < |advances| ==> AddsUp(advances[k])
  }

  lemma OneMoreNumber(advances: seq<Advance>, count: int, a: Advance, counted: int)
    requires NumbersInSteps(advances, count) && a.intervalNumber == count + 1 && count <= counted <= count + 1
    ensures NumbersInSteps(advances + [a], counted)
  {
  }

  lemma {:induction false} NumbersGrowByOne(advances: seq<Advance>, count: int, k: nat, n: nat)
    requires NumbersInSteps(advances, count) && k <= n < |advances|
    ensures advances[n].intervalNumber - advances[k].intervalNumber <= n - k
  {
    if k < n {
      NumbersGrowByOne(advances, count, k, n - 1);
    }
  }

  lemma NumberedIff(r: PlanRecord)
    requires NumbersInSteps(r.advances, r.plan.advancedIntervals) && AllAddUp(r.advances)
    ensures Numbered(r) <==> |r.advances| == r.plan.advancedIntervals
  {
    if |r.advances| == r.plan.advancedIntervals {
      forall k | 0 <= k < |r.advances|
        ensures r.advances[k].intervalNumber == k + 1 && AddsUp(r.advances[k])
      {
        NumbersGrowByOne(r.advances, r.plan.advancedIntervals, 0, k);
        NumbersGrowByOne(r.advances, r.plan.advancedIntervals, k, |r.advances| - 1);
      }
    }
  }

  lemma StepKeepsNumbers(r: PlanRecord, e: Event)
    requires NumbersInSteps(r.advances, r.plan.advancedIntervals) && AllAddUp(r.advances)
    ensures NumbersInSteps(Step(r, e).advances, Step(r, e).plan.advancedIntervals) && AllAddUp(Step(r, e).advances)
  {
    StepRecords(r, e);
    if Records(r, e) {
      var n := BatchOf(r, e.call).processed;
      ReachDealsWithAll(e.call.world, n);
      OneMoreNumber(r.advances, r.plan.advancedIntervals, AdvanceRow(r, e.call, n),
                    Step(r, e).plan.advancedIntervals);
    }
  }

  /** How often a run stored an advance row without counting it. */
  function Uncounted(r: PlanRecord, es: seq<Event>): nat {
    if es == [] then 0
    else
      var before, e := es[..|es| - 1], es[|es| - 1];
      Uncounted(r, before) + if Uncounts(Run(r, before), e) then 1 else 0
  }

  lemma {:induction false} RunKeepsNumbers(r: PlanRecord, es: seq<Event>)
    requires r.advances == [] && r.plan.advancedIntervals == 0
    ensures var after := Run(r, es);
            && NumbersInSteps(after.advances, after.plan.advancedIntervals) && AllAddUp(after.advances)
            && |after.advances| == after.plan.advancedIntervals + Uncounted(r, es)
  {
    if es != [] {
      var before, e := es[..|es| - 1], es[|es| - 1];
      RunKeepsNumbers(r, before);
      StepKeepsNumbers(Run(r, before), e);
      StepRecords(Run(r, before), e);
    }
  }

  /**
    Whatever fails, advances are numbered from 1 on without gaps and in order, each attempted count
    is its sent plus its failed count, and every advance the plan did not count makes one number
    come back: advances are numbered 1..count if and only if there was none.
  */
  lemma NumbersUnderFaults(b: Birth, es: seq<Event>)
    requires Legal(b)
    ensures var r := Run(Born(b), es);
            && NumbersInSteps(r.advances, r.plan.advancedIntervals) && AllAddUp(r.advances)
            && |r.advances| == r.plan.advancedIntervals + Uncounted(Born(b), es)
            && (Numbered(r) <==> Uncounted(Born(b), es) == 0)
  {
    RunKeepsNumbers(Born(b), es);
    NumberedIff(Run(Born(b), es));
  }

  // ---------------------------------------------------------------- attribution

  /** What the advances with number k report under s, together. */
  function ReportedAt(advances: seq<Advance>, k: int, s: RecipientStatus): int {
    if advances == [] then 0
    else
      var last := advances[|advances| - 1];
      ReportedAt(advances[..|advances| - 1], k, s) + if last.intervalNumber == k then CounterOf(last, s) else 0
  }

  /** The rows given status s and number k by an operation whose advance row is missing. */
  function UnreportedBy(r: PlanRecord, e: Event, k: int, s: RecipientStatus): nat {
    if Sends(r, e) && !Records(r, e) && k == r.plan.advancedIntervals + 1
    then Tally(e.call.world, Landed(e.call, BatchOf(r, e.call)), s) else 0
  }

  function UnreportedAt(r: PlanRecord, es: seq<Event>, k: int, s: RecipientStatus): nat {
    if es == [] then 0
    else
      var before, e := es[..|es| - 1], es[|es| - 1];
      UnreportedAt(r, before, k, s) + UnreportedBy(Run(r, before), e, k, s)
  }

  lemma BatchSettles(r: PlanRecord, call: Call, p: nat, landed: nat)
    requires FinishedPrefix(r.recipients)
    requires p == FirstPending(r.recipients) && landed == Landed(call, BatchOf(r, call))
    ensures Settled(r.recipients, LoopRecipients(r, call, BatchOf(r, call)), p, p + landed,
                    r.plan.advancedIntervals + 1, call.world)
  {
    BatchIsSound(r, call);
    LoopRows(r, call, BatchOf(r, call));
  }

  lemma SettledCounts(before: seq<Recipient>, after: seq<Recipient>, p: nat, landed: nat, k0: int, world: World,
                      k: int, s: RecipientStatus)
    requires Settled(before, after, p, p + landed, k0, world) && s != Pending
    ensures CountAt(after, |after|, k, s)
            == CountAt(before, |before|, k, s) + if k == k0 then Tally(world, landed, s) else 0
  {
    CountSettled(before, after, p, p + landed, k0, world, |before|, k, s);
  }

  lemma LoopCounts(r: PlanRecord, call: Call, k: int, s: RecipientStatus)
    requires FinishedPrefix(r.recipients) && s != Pending
    ensures var after := LoopRecipients(r, call, BatchOf(r, call));
            CountAt(after, |after|, k, s)
            == CountAt(r.recipients, |r.recipients|, k, s)
               + if k == r.plan.advancedIntervals + 1 then Tally(call.world, Landed(call, BatchOf(r, call)), s) else 0
  {
    var p, landed := FirstPending(r.recipients), Landed(call, BatchOf(r, call));
    BatchSettles(r, call, p, landed);
    SettledCounts(r.recipients, LoopRecipients(r, call, BatchOf(r, call)), p, landed,
                  r.plan.advancedIntervals + 1, call.world, k, s);
  }

  lemma StepReports(r: PlanRecord, e: Event, k: int, s: RecipientStatus)
    requires s != Pending
    ensures ReportedAt(Step(r, e).advances, k, s)
            == ReportedAt(r.advances, k, s)
               + if Records(r, e) && k == r.plan.advancedIntervals + 1
                 then Tally(e.call.world, BatchOf(r, e.call).processed, s) else 0
  {
    StepRecords(r, e);
    if Records(r, e) {
      var a := AdvanceRow(r, e.call, BatchOf(r, e.call).processed);
      AdvanceRowCounts(r, e.call, BatchOf(r, e.call).processed);
      assert (r.advances + [a])[..|r.advances|] == r.advances;
    }
  }

  lemma StepAttributes(r: PlanRecord, e: Event, k: int, s: RecipientStatus)
    requires FinishedPrefix(r.recipients) && s != Pending
    ensures var after := Step(r, e);
            CountAt(after.recipients, |after.recipients|, k, s) + ReportedAt(r.advances, k, s)
            == CountAt(r.recipients, |r.recipients|, k, s) + ReportedAt(after.advances, k, s)
               + UnreportedBy(r, e, k, s)
  {
    StepReports(r, e, k, s);
    StepRows(r, e);
    if Sends(r, e) {
      LoopCounts(r, e.call, k, s);
    }
  }

  lemma {:induction false} RunAttributes(r: PlanRecord, es: seq<Event>, k: int, s: RecipientStatus)
    requires Safe(r) && s != Pending
    ensures var after := Run(r, es);
            CountAt(after.recipients, |after.recipients|, k, s) + ReportedAt(r.advances, k, s)
            == CountAt(r.recipients, |r.recipients|, k, s) + ReportedAt(after.advances, k, s)
               + UnreportedAt(r, es, k, s)
  {
    if es != [] {
      var before, e := es[..|es| - 1], es[|es| - 1];
      RunAttributes(r, before, k, s);
      RunKeepsSafe(r, before);
      StepAttributes(Run(r, before), e, k, s);
    }
  }

  /**
    Whatever fails, the recipients marked with number k are, status by status, those the advances
    with that number report and those that operations without an advance row dealt with.
  */
  lemma AttributionUnderFaults(b: Birth, es: seq<Event>, k: int, s: RecipientStatus)
    requires Legal(b) && s != Pending
    ensures var r := Run(Born(b), es);
            CountAt(r.recipients, |r.recipients|, k, s)
            == ReportedAt(r.advances, k, s) + UnreportedAt(Born(b), es, k, s)
  {
    CreatedIsStrict(b.command, b.targets, b.stamps, b.now);
    UnmarkedAtBirth(b, k, s);
    RunAttributes(Born(b), es, k, s);
  }

  lemma UnmarkedAtBirth(b: Birth, k: int, s: RecipientStatus)
    requires Legal(b) && s != Pending
    ensures CountAt(Born(b).recipients, |Born(b).recipients|, k, s) == 0
  {
    FreshRowsAre(b.targets, b.stamps);
    NobodyAt(Born(b).recipients, |Born(b).recipients|, k, s);
  }

  // ---------------------------------------------------------------- order of the marks

  lemma SettledKeepsMarks(before: seq<Recipient>, after: seq<Recipient>, from: nat, to: nat, k0: int, world: World)
    requires Settled(before, after, from, to, k0, world) && IntervalsInOrder(before, k0) && k0 >= 1
    requires forall i :: from <= i < |before| ==> before[i].status == Pending
    ensures IntervalsInOrder(after, k0)
  {
  }

  lemma StepKeepsMarks(r: PlanRecord, e: Event)
    requires FinishedPrefix(r.recipients) && r.plan.advancedIntervals >= 0
    requires IntervalsInOrder(r.recipients, r.plan.advancedIntervals + 1)
    ensures IntervalsInOrder(Step(r, e).recipients, Step(r, e).plan.advancedIntervals + 1)
  {
    StepRecords(r, e);
    StepRows(r, e);
    if Sends(r, e) {
      LoopKeepsMarks(r, e.call);
    }
    MarksFurtherOn(Step(r, e).recipients, r.plan.advancedIntervals + 1, Step(r, e).plan.advancedIntervals + 1);
  }

  lemma StepRows(r: PlanRecord, e: Event)
    ensures Step(r, e).recipients
            == if Sends(r, e) then LoopRecipients(r, e.call, BatchOf(r, e.call)) else r.recipients
  {
    if Sends(r, e) {
      BatchRowsAre(r, e.call);
    }
  }

  lemma MarksFurtherOn(rows: seq<Recipient>, count: int, further: int)
    requires IntervalsInOrder(rows, count) && count <= further
    ensures IntervalsInOrder(rows, further)
  {
  }

  lemma LoopKeepsMarks(r: PlanRecord, call: Call)
    requires FinishedPrefix(r.recipients) && r.plan.advancedIntervals >= 0
    requires IntervalsInOrder(r.recipients, r.plan.advancedIntervals + 1)
    ensures IntervalsInOrder(LoopRecipients(r, call, BatchOf(r, call)), r.plan.advancedIntervals + 1)
  {
    var p, landed := FirstPending(r.recipients), Landed(call, BatchOf(r, call));
    BatchSettles(r, call, p, landed);
    PendingSuffix(r.recipients);
    SettledKeepsMarks(r.recipients, LoopRecipients(r, call, BatchOf(r, call)), p, p + landed,
                      r.plan.advancedIntervals + 1, call.world);
  }

  /** Whatever fails, recipients are marked in the order of the numbers, no further than one beyond the count. */
  lemma {:induction false} MarksUnderFaults(b: Birth, es: seq<Event>)
    requires Legal(b)
    ensures var r := Run(Born(b), es);
            && r.plan.advancedIntervals >= 0
            && IntervalsInOrder(r.recipients, r.plan.advancedIntervals + 1)
  {
    if es == [] {
      FreshRowsAre(b.targets, b.stamps);
    } else {
      var before, e := es[..|es| - 1], es[|es| - 1];
      MarksUnderFaults(b, before);
      ReachedRows(b, before);
      RunKeepsSafe(Born(b), before);
      StepKeepsMarks(Run(Born(b), before), e);
      StepRecords(Run(Born(b), before), e);
    }
  }
}
