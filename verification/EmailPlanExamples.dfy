/** Concrete runs in which a property that needs a proviso fails without it. */
module EmailPlanExamples {
  import opened Basics
  import opened Database
  import opened UtcClock
  import opened EmailPlanModel
  import opened EmailPlanSafety
  import opened EmailPlanFaults
  import opened EmailPlanRuns
  import opened EmailPlanTheorems
  import opened EmailPlanProgress

  /** Two accounts, one message an interval and one a day, the interval being zero. */
  function OneADay(): Birth {
    Birth(Command(1, 0, Some(1), Some(DAY)), [Target(1, "a"), Target(2, "b")], [Stamp(1, 1), Stamp(1, 2)], DAY)
  }

  function Everybody(i: nat): Reply {
    Reply([Contact("x", true, None)], true, "")
  }

  function AllStored(i: nat): Write {
    Stored
  }

  /** Everybody is reachable, no update fails; the advance row ends as told. */
  function AdvanceAt(manual: bool, now: Instant, insert: Write): Call {
    Call(manual, now, now, Everybody, Faults(AllStored, insert, Stored))
  }

  lemma OneADayIsLegal()
    ensures Legal(OneADay()) && Sensible(Born(OneADay()).plan)
  {
  }

  lemma NewPlanIsPending(b: Birth)
    requires Legal(b)
    ensures Strict(Born(b)) && |PendingRows(Born(b).recipients)| == |Born(b).recipients| == |b.targets|
  {
    CreatedIsStrict(b.command, b.targets, b.stamps, b.now);
    FreshRowsAre(b.targets, b.stamps);
  }

  lemma RunTwo(r: PlanRecord, a: Event, b: Event)
    ensures Run(r, [a, b]) == Step(Step(r, a), b)
  {
    RunOneMore(r, [], a);
    RunOneMore(r, [a], b);
    assert [] + [a] == [a] && [a] + [b] == [a, b];
  }

  /** Two advances on one day, the row of the first being lost, send two messages for a limit of one. */
  lemma DailyLimitExceeded() returns (b: Birth, es: seq<Event>)
    ensures Legal(b) && b.command.maxPerDay == Some(1)
    ensures MailOn(Run(Born(b), es).trace.mail, DayOf(DAY)) == 2
  {
    b := OneADay();
    var lost, again := AdvanceAt(true, DAY, Lost), AdvanceAt(true, DAY, Stored);
    es := [DoAdvance(lost), DoAdvance(again)];
    OneADayIsLegal();
    NewPlanIsPending(b);
    LostRowBreaksDailyLimit(Born(b), lost, again, 1, DayOf(DAY));
    RunTwo(Born(b), DoAdvance(lost), DoAdvance(again));
  }

  /** The one message of the day goes to the first of the two. */
  lemma OneIsReached(r: PlanRecord, call: Call)
    requires call == AdvanceAt(true, DAY, Stored)
    requires |PendingRows(r.recipients)| == 2 && SendCapacity(r.plan, RemainingToday(r, call.now)) == 1
    ensures Reach(r, call) == 1 && Attempts(call.world, 1) == 1
  {
    EverybodyReachable(call.world, 0);
    EverybodyReachable(call.world, 1);
    EverybodyReachable(call.world, 2);
    BatchIsShortestPrefix(r, call);
  }

  /** An advance that mails the first of two recipients and loses the update of its row. */
  function ForgetfulAdvance(): Call {
    Call(true, DAY, DAY, Everybody, Faults(AllLost, Stored, Stored))
  }

  function AllLost(i: nat): Write {
    Lost
  }

  lemma ForgetfulBatch(r: PlanRecord)
    requires |PendingRows(r.recipients)| == 2 && SendCapacity(r.plan, RemainingToday(r, DAY)) == 1
    ensures BatchOf(r, ForgetfulAdvance()) == Batch(1, true)
    ensures AdvanceBatch(r, ForgetfulAdvance()).record
            == r.(trace := LoopTrace(r, ForgetfulAdvance(), Batch(1, true)))
  {
    var call := ForgetfulAdvance();
    EverybodyReachable(call.world, 0);
    EverybodyReachable(call.world, 1);
    EverybodyReachable(call.world, 2);
    BatchIsShortestPrefix(r, call);
    FirstFaultIs(call.faults.update, Reach(r, call), 0);
    assert LoopRecipients(r, call, Batch(1, true)) == r.recipients;
  }

  /** A plan with two recipients that has spent nothing yet. */
  predicate TwoUnspent(r: PlanRecord) {
    && r.plan.status == Scheduled && r.advances == []
    && r.plan.maxPerInterval == 1 && r.plan.maxPerDay == Some(1)
    && |r.recipients| == 2 && FirstPending(r.recipients) == 0
  }

  ghost predicate TwoPending(r: PlanRecord) {
    Safe(r) && TwoUnspent(r)
  }

  lemma ForgetfulForgets(r: PlanRecord)
    requires TwoUnspent(r)
    ensures Forgets(r, DoAdvance(ForgetfulAdvance()), 0)
  {
    ForgetfulBatch(r);
  }

  lemma ForgetfulStep(r: PlanRecord)
    requires TwoUnspent(r)
    ensures Forgets(r, DoAdvance(ForgetfulAdvance()), 0)
    ensures Step(r, DoAdvance(ForgetfulAdvance())) == r.(trace := LoopTrace(r, ForgetfulAdvance(), Batch(1, true)))
  {
    ForgetfulForgets(r);
    ForgetfulLeaves(r);
  }

  lemma ForgetfulLeaves(r: PlanRecord)
    requires TwoUnspent(r)
    ensures Step(r, DoAdvance(ForgetfulAdvance())) == r.(trace := LoopTrace(r, ForgetfulAdvance(), Batch(1, true)))
  {
    ForgetfulBatch(r);
    ForgetfulIsAccepted(r);
  }

  lemma ForgetfulIsAccepted(r: PlanRecord)
    requires TwoUnspent(r)
    ensures Step(r, DoAdvance(ForgetfulAdvance())) == AdvanceBatch(r, ForgetfulAdvance()).record
  {
  }

  lemma TraceDoesNotMatter(r: PlanRecord, trace: Trace)
    requires TwoPending(r)
    ensures TwoPending(r.(trace := trace))
  {
  }

  /** An advance without faults mails the first one. */
  lemma FirstIsMailed(r: PlanRecord)
    requires TwoPending(r)
    ensures var again := AdvanceAt(true, DAY, Stored);
            !Forgets(r, DoAdvance(again), 0) && Submitted(Step(r, DoAdvance(again)).recipients[0]) == 1
  {
    var again := AdvanceAt(true, DAY, Stored);
    OneIsReached(r, again);
    FaultlessBatch(r, again);
    BatchSubmits(r, again, 0);
    assert AdvancePlan(r, again) == AdvanceBatch(r, again);
  }

  /** One account is mailed twice: the update after the first message is lost, and the advance repeated. */
  lemma AccountMailedTwice() returns (b: Birth, es: seq<Event>)
    ensures Legal(b) && |es| == 2 && |Run(Born(b), es).recipients| == 2
    ensures var r := Run(Born(b), es);
            MailsToAccount(r.recipients, r.trace.mail, r.recipients[0].accountId) == 2
  {
    b := OneADay();
    var forget, again := DoAdvance(ForgetfulAdvance()), DoAdvance(AdvanceAt(true, DAY, Stored));
    es := [forget, again];
    OneADayIsLegal();
    NewPlanIsPending(b);
    ForgetfulStep(Born(b));
    TraceDoesNotMatter(Born(b), Step(Born(b), forget).trace);
    FirstIsMailed(Step(Born(b), forget));
    RunTwo(Born(b), forget, again);
    ForgottenTwo(Born(b), forget, again, 0);
    ReachedRows(b, es);
    MailPerAccountUnderFaults(b, es, 0);
  }

  lemma ForgottenTwo(r: PlanRecord, a: Event, b: Event, i: nat)
    ensures Forgotten(r, [a, b], i)
            == (if Forgets(r, a, i) then 1 else 0) + (if Forgets(Step(r, a), b, i) then 1 else 0)
  {
    RunOneMore(r, [], a);
    assert [a, b][..1] == [a] && [a][..0] == [] && [] + [a] == [a];
    assert Run(r, []) == r && Forgotten(r, [], i) == 0;
    assert Forgotten(r, [a], i) == if Forgets(r, a, i) then 1 else 0;
  }

  /** A paused plan whose only message of the day is spent by a manual advance. */
  lemma SpentWhilePaused(r: PlanRecord, call: Call)
    requires Safe(r) && call == AdvanceAt(true, DAY, Stored)
    requires |PendingRows(r.recipients)| == 2 && r.advances == []
    requires r.plan.maxPerInterval == 1 && r.plan.maxPerDay == Some(1)
    ensures Reach(r, call) == 1 && Attempts(call.world, 1) == 1 && AttemptedOn(r.advances, DayOf(DAY)) == 0
    ensures PendingRows(CleanBatch(r, call).recipients) != []
  {
    OneIsReached(r, call);
    CleanAttemptedOn(r, call, DayOf(DAY));
    CleanPending(r, call);
  }

  /** The plan after pause and manual advance, and what the next two operations make of it. */
  lemma SpentThenResumed(r: PlanRecord, spend: Call, tick: Call)
    requires Strict(r) && r.plan.status == Scheduled && |PendingRows(r.recipients)| == 2 && r.advances == []
    requires Sensible(r.plan) && r.plan.maxPerInterval == 1 && r.plan.maxPerDay == Some(1)
    requires r.plan.intervalMinutes == 0
    requires spend == AdvanceAt(true, DAY, Stored) && tick == AdvanceAt(false, DAY, Stored)
    ensures var resumed := Step(Step(Step(r, DoPause(DAY, Stored)), DoAdvance(spend)), DoResume(DAY, Stored));
            && Rejection(resumed.plan, tick) == None
            && Step(resumed, DoAdvance(tick)).recipients == resumed.recipients
            && PendingRows(resumed.recipients) != []
  {
    var paused := Step(r, DoPause(DAY, Stored));
    StepKeepsStrict(r, DoPause(DAY, Stored));
    SpentWhilePaused(paused, spend);
    PausedManualAdvanceWastesATick(paused, spend, DAY, tick);
    FaultlessAdvance(paused, spend);
  }

  lemma RunThree(r: PlanRecord, a: Event, b: Event, c: Event)
    ensures Run(r, [a, b, c]) == Step(Step(Step(r, a), b), c)
  {
    RunTwo(r, a, b);
    RunOneMore(r, [a, b], c);
    assert [a, b] + [c] == [a, b, c];
  }

  lemma TickIsWasted(b: Birth, spend: Call, tick: Call)
    requires b == OneADay() && spend == AdvanceAt(true, DAY, Stored) && tick == AdvanceAt(false, DAY, Stored)
    ensures var r := Run(Born(b), [DoPause(DAY, Stored), DoAdvance(spend), DoResume(DAY, Stored)]);
            && Rejection(r.plan, tick) == None && Step(r, DoAdvance(tick)).recipients == r.recipients
            && PendingRows(r.recipients) != []
  {
    OneADayIsLegal();
    NewPlanIsPending(b);
    SpentThenResumed(Born(b), spend, tick);
    RunThree(Born(b), DoPause(DAY, Stored), DoAdvance(spend), DoResume(DAY, Stored));
  }

  /** Pause, manual advance, resume: the automatic advance that follows is accepted and does nothing. */
  lemma WastedTick() returns (b: Birth, es: seq<Event>, tick: Call)
    ensures Legal(b) && Sensible(Born(b).plan) && AllFaultless(es) && NoFaults(tick.faults) && !tick.manual
    ensures forall i :: 0 <= i < |es| ==> 0 < ClockOf(es[i]) <= tick.now
    ensures var r := Run(Born(b), es);
            && Rejection(r.plan, tick) == None && Step(r, DoAdvance(tick)).recipients == r.recipients
            && PendingRows(r.recipients) != []
  {
    b, tick := OneADay(), AdvanceAt(false, DAY, Stored);
    var spend := AdvanceAt(true, DAY, Stored);
    es := [DoPause(DAY, Stored), DoAdvance(spend), DoResume(DAY, Stored)];
    OneADayIsLegal();
    ThreeAtOnce(es);
    TickIsWasted(b, spend, tick);
  }

  lemma ThreeAtOnce(es: seq<Event>)
    requires |es| == 3 && Faultless(es[0]) && Faultless(es[1]) && Faultless(es[2])
    requires ClockOf(es[0]) == ClockOf(es[1]) == ClockOf(es[2]) == DAY
    ensures AllFaultless(es) && forall i :: 0 <= i < |es| ==> 0 < ClockOf(es[i]) <= DAY
  {
  }
}
