/**
  The plan service as methods over the plan tables.  Each has exactly the effect of its function in
  EmailPlanModel, whatever store writes fail.
*/
module EmailPlanService {
  import opened Basics
  import opened Database
  import opened UtcClock
  import opened EmailPlanModel
  import opened EmailPlanSafety
  import opened EmailPlanStore
  import opened EmailPlanTargets
  import opened EmailPlanTheorems
  import opened EmailPlanFaults
  import opened EmailPlanRuns

  /** Counters the send loop keeps in memory. */
  datatype Tallies = Tallies(attempted: nat, sent: nat, skipped: nat, failed: nat)

  function TalliesOf(world: World, n: nat): Tallies {
    Tallies(Attempts(world, n), Tally(world, n, Sent), Tally(world, n, Skipped), Tally(world, n, Failed))
  }

  method ChooseContact(contacts: seq<Contact>) returns (contact: Option<Contact>)
    ensures contact == if contacts == [] then None else Some(BestContact(contacts))
  {
    contact := None;
    var i := 0;
    while i < |contacts|
      invariant 0 <= i <= |contacts|
      invariant contact == if i == 0 then None else Some(BestContact(contacts[..i]))
    {
      var c := contacts[i];
      assert contacts[..i + 1][..i] == contacts[..i];
      if contact == None {
        contact := Some(c);
      } else if c.isPrimary != contact.value.isPrimary {
        if c.isPrimary {
          contact := Some(c);
        }
      } else if VerifiedAfter(c, contact.value) {
        contact := Some(c);
      }
      i := i + 1;
    }
    assert contacts[..|contacts|] == contacts;
  }

  /** One round of the send loop in memory: the settled row and the address a message was sent to. */
  method Attend(recipient: Recipient, k: int, reply: Reply) returns (settled: Recipient, address: Option<string>)
    ensures settled == Settle(recipient, k, reply)
    ensures address == if Reachable(reply) then Some(BestContact(reply.contacts).content) else None
  {
    settled := recipient.(attemptCount := recipient.attemptCount + 1, lastInterval := Some(k));
    var contact := ChooseContact(reply.contacts);
    if contact == None {
      settled := settled.(status := Skipped, lastError := Some(NO_CONTACT));
      address := None;
    } else {
      settled := settled.(resolvedEmail := Some(contact.value.content));
      if !reply.accepted {
        settled := settled.(status := Failed, lastError := Some(Truncate(reply.error, MAX_ERROR)));
      } else {
        settled := settled.(status := Sent, lastError := None);
      }
      address := Some(contact.value.content);
    }
  }

  lemma SettledRowsKeepIds(pend: seq<Recipient>, k: int, world: World, update: nat -> Write, n: nat)
    ensures forall i :: 0 <= i < |pend| ==> SettledRows(pend, k, world, update, n)[i].id == pend[i].id
  {
    var rows := SettledRows(pend, k, world, update, n);
    forall i | 0 <= i < |pend|
      ensures rows[i].id == pend[i].id
    {
      assert rows[i] == if i < n && update(i) != Lost then Settle(pend[i], k, world(i)) else pend[i];
    }
  }

  /** Rewriting the next pending row by its identifier touches that row only. */
  lemma RewrittenIs(rows: seq<Recipient>, p: nat, k: int, world: World, update: nat -> Write, n: nat)
    requires DistinctIds(rows) && p + n < |rows| && update(n) != Lost
    ensures Rewritten(rows[..p] + SettledRows(rows[p..], k, world, update, n), Settle(rows[p + n], k, world(n)))
            == rows[..p] + SettledRows(rows[p..], k, world, update, n + 1)
  {
    var pend := rows[p..];
    var settled := SettledRows(pend, k, world, update, n);
    var before := rows[..p] + settled;
    var after := rows[..p] + SettledRows(pend, k, world, update, n + 1);
    var next := Settle(rows[p + n], k, world(n));
    SettledRowsKeepIds(pend, k, world, update, n);
    forall i | 0 <= i < |rows|
      ensures Rewritten(before, next)[i] == after[i]
    {
      if i < p {
        assert before[i] == rows[i] && rows[i].id != next.id;
      } else {
        assert before[i] == settled[i - p] && pend[i - p] == rows[i];
        assert i != p + n ==> rows[i].id != next.id;
      }
    }
  }

  lemma LostIs(rows: seq<Recipient>, p: nat, k: int, world: World, update: nat -> Write, n: nat)
    requires p + n < |rows| && update(n) == Lost
    ensures rows[..p] + SettledRows(rows[p..], k, world, update, n)
            == rows[..p] + SettledRows(rows[p..], k, world, update, n + 1)
  {
  }

  /**
    Where a loop over m pending recipients ends: it goes on while there is room and updates are
    stored, and a failed update is its last round.
  */
  ghost predicate BatchIs(world: World, update: nat -> Write, cap: int, m: nat, b: Batch) {
    && b.processed <= m
    && (forall j :: 0 <= j < b.processed ==> Attempts(world, j) < cap)
    && (forall j :: 0 <= j < b.processed ==> (update(j) == Stored <==> !(b.broken && j == b.processed - 1)))
    && (if b.broken then b.processed > 0 else b.processed == m || Attempts(world, b.processed) >= cap)
  }

  /** Where the loop is after i rounds of the batch b, unless the last one broke it off. */
  predicate Under(b: Batch, i: nat, ok: bool) {
    if ok then i <= b.processed && (b.broken ==> i < b.processed) else b == Batch(i, true)
  }

  lemma RoundDecides(world: World, update: nat -> Write, cap: int, m: nat, i: nat)
    requires Under(RunBatch(world, cap, m, update), i, true) && i < m && Attempts(world, i) < cap
    ensures Under(RunBatch(world, cap, m, update), i + 1, update(i) == Stored)
  {
    RunBatchIs(world, cap, m, update);
  }

  lemma LoopEnds(world: World, update: nat -> Write, cap: int, m: nat, i: nat, ok: bool)
    requires Under(RunBatch(world, cap, m, update), i, ok)
    requires !ok || i >= m || Attempts(world, i) >= cap
    ensures RunBatch(world, cap, m, update) == Batch(i, !ok)
  {
    RunBatchIs(world, cap, m, update);
  }

  lemma RunBatchIs(world: World, cap: int, m: nat, update: nat -> Write)
    ensures BatchIs(world, update, cap, m, RunBatch(world, cap, m, update))
  {
    StopAtBelow(world, cap, m, 0);
    FirstFaultIs(update, StopAt(world, cap, m, 0), 0);
  }

  lemma LoopRowsAre(r: PlanRecord, call: Call, b: Batch, p: nat, k: int)
    requires p == FirstPending(r.recipients) && k == r.plan.advancedIntervals + 1
    ensures LoopRecipients(r, call, b)
            == r.recipients[..p] + SettledRows(r.recipients[p..], k, call.world, call.faults.update, b.processed)
  {
  }

  /** The rows after one more round, given what the update of that round did. */
  lemma RoundRows(r: PlanRecord, call: Call, i: nat, broken: bool)
    requires DistinctIds(r.recipients) && i < |PendingRows(r.recipients)|
    ensures var settled := Settle(PendingRows(r.recipients)[i], r.plan.advancedIntervals + 1, call.world(i));
            LoopRecipients(r, call, Batch(i + 1, broken))
            == if call.faults.update(i) == Lost then LoopRecipients(r, call, Batch(i, false))
               else Rewritten(LoopRecipients(r, call, Batch(i, false)), settled)
  {
    var p, k := FirstPending(r.recipients), r.plan.advancedIntervals + 1;
    assert PendingRows(r.recipients)[i] == r.recipients[p + i];
    LoopRowsAre(r, call, Batch(i, false), p, k);
    LoopRowsAre(r, call, Batch(i + 1, broken), p, k);
    if call.faults.update(i) == Lost {
      LostIs(r.recipients, p, k, call.world, call.faults.update, i);
    } else {
      RewrittenIs(r.recipients, p, k, call.world, call.faults.update, i);
    }
  }

  function RoundTrace(r: PlanRecord, call: Call, i: nat, broken: bool): Trace
    requires i < |PendingRows(r.recipients)|
  {
    var id := PendingRows(r.recipients)[i].id;
    Trace(Submission(id, call.now, call.world(i)),
          if broken then [id] else [],
          if broken then LoopMail(r, call, i + 1) else [])
  }

  /** One more round: the row is rewritten unless the write was lost, and the round is noted. */
  lemma RoundRecord(r: PlanRecord, call: Call, i: nat, broken: bool)
    requires DistinctIds(r.recipients) && i < |PendingRows(r.recipients)|
    ensures var settled := Settle(PendingRows(r.recipients)[i], r.plan.advancedIntervals + 1, call.world(i));
            var before := AfterLoop(r, call, Batch(i, false));
            AfterLoop(r, call, Batch(i + 1, broken))
            == Noted(if call.faults.update(i) == Lost then before else WithRows(before, settled),
                     RoundTrace(r, call, i, broken))
  {
    RoundRows(r, call, i, broken);
    RoundTraces(r, call, i, broken);
  }

  function Together(t: Trace, more: Trace): Trace {
    Trace(t.mail + more.mail, t.failedUpdates + more.failedUpdates, t.unrecorded + more.unrecorded)
  }

  lemma RoundTraces(r: PlanRecord, call: Call, i: nat, broken: bool)
    requires i < |PendingRows(r.recipients)|
    ensures LoopTrace(r, call, Batch(i + 1, broken))
            == Together(LoopTrace(r, call, Batch(i, false)), RoundTrace(r, call, i, broken))
  {
    var mail, next := LoopMail(r, call, i), Submission(PendingRows(r.recipients)[i].id, call.now, call.world(i));
    assert LoopMail(r, call, i + 1) == mail + next;
    assert r.trace.mail + (mail + next) == r.trace.mail + mail + next;
    assert r.trace.failedUpdates + [] == r.trace.failedUpdates;
    assert r.trace.unrecorded + [] == r.trace.unrecorded;
  }

  lemma NobodySettledYet(r: PlanRecord, call: Call)
    ensures LoopRecipients(r, call, Batch(0, false)) == r.recipients
  {
  }

  lemma Overwritten(records: map<nat, PlanRecord>, planId: nat, r: PlanRecord, s: PlanRecord)
    ensures records[planId := r][planId := s] == records[planId := s]
  {
  }

  lemma NothingNotedYet(r: PlanRecord, call: Call)
    ensures LoopTrace(r, call, Batch(0, false)) == r.trace
  {
    assert r.trace.mail + [] == r.trace.mail;
    assert r.trace.failedUpdates + [] == r.trace.failedUpdates;
    assert r.trace.unrecorded + [] == r.trace.unrecorded;
  }

  lemma NothingYet(r: PlanRecord, call: Call)
    ensures AfterLoop(r, call, Batch(0, false)) == r
  {
    NobodySettledYet(r, call);
    NothingNotedYet(r, call);
  }

  function Counted(t: Tallies, verdict: RecipientStatus): Tallies {
    match verdict
    case Skipped => t.(skipped := t.skipped + 1)
    case Failed => t.(attempted := t.attempted + 1, failed := t.failed + 1)
    case _ => t.(attempted := t.attempted + 1, sent := t.sent + 1)
  }

  /** What the loop keeps in memory after i rounds: i recipients are no longer pending. */
  ghost predicate InMemory(pend: seq<Recipient>, world: World, i: nat, recipients: seq<Recipient>, t: Tallies) {
    && i <= |pend| == |recipients|
    && (forall j :: 0 <= j < i ==> recipients[j].status != Pending)
    && (forall j :: i <= j < |pend| ==> recipients[j] == pend[j])
    && t == TalliesOf(world, i)
  }

  class PlanService {
    const st: PlanStore

    constructor (st: PlanStore)
      ensures this.st == st
    {
      this.st := st;
    }

    /** One round: look up contacts, mail, update the row; a failed update ends the advance. */
    method SendRound(planId: nat, ghost r: PlanRecord, recipient: Recipient, call: Call, k: int, i: nat,
                     mail: seq<Mail>)
      returns (stored: bool, settled: Recipient, mail': seq<Mail>)
      requires planId in st.records && DistinctIds(r.recipients) && i < |PendingRows(r.recipients)|
      requires st.records[planId] == AfterLoop(r, call, Batch(i, false))
      requires k == r.plan.advancedIntervals + 1 && recipient == PendingRows(r.recipients)[i]
      requires mail == LoopMail(r, call, i)
      modifies st
      ensures stored == (call.faults.update(i) == Stored)
      ensures settled == Settle(recipient, k, call.world(i))
      ensures mail' == LoopMail(r, call, i + 1)
      ensures st.records == old(st.records)[planId := AfterLoop(r, call, Batch(i + 1, !stored))]
    {
      var address: Option<string>;
      settled, address := Attend(recipient, k, call.world(i));
      var sent := if address.Some? then [Mail(settled.id, call.now, address.value)] else [];
      mail' := mail + sent;
      stored := st.UpdateRecipient(planId, settled, call.faults.update(i));
      st.Note(planId, Trace(sent, if stored then [] else [settled.id], if stored then [] else mail'));
      RoundRecord(r, call, i, !stored);
    }

    /** One round with what the loop keeps in memory. */
    method SendStep(planId: nat, ghost r: PlanRecord, pend: seq<Recipient>, call: Call, k: int, i: nat,
                    recipients: seq<Recipient>, t: Tallies, mail: seq<Mail>)
      returns (stored: bool, recipients': seq<Recipient>, t': Tallies, mail': seq<Mail>)
      requires planId in st.records && DistinctIds(r.recipients) && i < |pend| && pend == PendingRows(r.recipients)
      requires st.records[planId] == AfterLoop(r, call, Batch(i, false))
      requires k == r.plan.advancedIntervals + 1 && InMemory(pend, call.world, i, recipients, t)
      requires mail == LoopMail(r, call, i)
      modifies st
      ensures stored == (call.faults.update(i) == Stored)
      ensures InMemory(pend, call.world, i + 1, recipients', t') && mail' == LoopMail(r, call, i + 1)
      ensures st.records == old(st.records)[planId := AfterLoop(r, call, Batch(i + 1, !stored))]
    {
      var settled;
      stored, settled, mail' := SendRound(planId, r, recipients[i], call, k, i, mail);
      t' := Counted(t, settled.status);
      recipients' := recipients[i := settled];
    }

    /** The send loop: at most `cap` attempts, one update per recipient, gone at the first failed update. */
    method SendLoop(planId: nat, ghost r: PlanRecord, k: int, cap: int, pend: seq<Recipient>, call: Call,
                    ghost b: Batch)
      returns (ok: bool, recipients: seq<Recipient>, t: Tallies, mail: seq<Mail>)
      requires planId in st.records && DistinctIds(r.recipients)
      requires k == r.plan.advancedIntervals + 1 && pend == PendingRows(r.recipients)
      requires st.records[planId] == AfterLoop(r, call, Batch(0, false))
      requires b == RunBatch(call.world, cap, |pend|, call.faults.update)
      modifies st
      ensures st.records == old(st.records)[planId := AfterLoop(r, call, b)]
      ensures ok == !b.broken
      ensures InMemory(pend, call.world, b.processed, recipients, t)
      ensures mail == LoopMail(r, call, b.processed)
    {
      ghost var before := st.records;
      recipients, t, mail := pend, Tallies(0, 0, 0, 0), [];
      var i := 0;
      ok := true;
      while ok && i < |pend| && t.attempted < cap
        invariant Under(b, i, ok) && InMemory(pend, call.world, i, recipients, t) && mail == LoopMail(r, call, i)
        invariant st.records == before[planId := AfterLoop(r, call, Batch(i, !ok))]
        decreases |pend| - i
      {
        ok, recipients, t, mail := SendStep(planId, r, pend, call, k, i, recipients, t, mail);
        Overwritten(before, planId, AfterLoop(r, call, Batch(i, false)), AfterLoop(r, call, Batch(i + 1, !ok)));
        RoundDecides(call.world, call.faults.update, cap, |pend|, i);
        i := i + 1;
      }
      LoopEnds(call.world, call.faults.update, cap, |pend|, i, ok);
    }

    method GetRemainingDailyCapacity(planId: nat, plan: Plan, now: Instant) returns (remaining: Option<int>)
      requires planId in st.records && plan == st.records[planId].plan
      ensures remaining == RemainingToday(st.records[planId], now)
      ensures plan.maxPerDay == None ==> remaining == None
      ensures plan.maxPerDay.Some? ==>
                exists midnight: int ::
                  && midnight % 86_400_000_000_000 == 0 && midnight <= now < midnight + 86_400_000_000_000
                  && remaining == Some(Max(0, plan.maxPerDay.value
                                              - AttemptedWithin(st.records[planId].advances, midnight,
                                                                midnight + 86_400_000_000_000)))
    {
      if plan.maxPerDay == None {
        return None;
      }
      DayWindow(now, now);
      DailyQueryWindow(now, StartOfUtcDay(now));
      var attemptedToday := st.SumAttemptedToday(planId, StartOfUtcDay(now), StartOfNextUtcDay(now));
      var left := plan.maxPerDay.value - attemptedToday;
      if left < 0 {
        left := 0;
      }
      remaining := Some(left);
      ghost var midnight := StartOfUtcDay(now);
      assert midnight % 86_400_000_000_000 == 0 && midnight <= now < midnight + 86_400_000_000_000
             && attemptedToday
                == AttemptedWithin(st.records[planId].advances, midnight, midnight + 86_400_000_000_000);
    }

    /** The pending recipients among those in memory after the loop. */
    method CountLeft(ghost pend: seq<Recipient>, ghost world: World, ghost n: nat, recipients: seq<Recipient>,
                     ghost t: Tallies)
      returns (left: nat)
      requires InMemory(pend, world, n, recipients, t) && forall j :: 0 <= j < |pend| ==> pend[j].status == Pending
      ensures left == |pend| - n
    {
      left := 0;
      var i := 0;
      while i < |recipients|
        invariant 0 <= i <= |recipients| && left == Max(0, i - n)
      {
        if recipients[i].status == Pending {
          left := left + 1;
        }
        i := i + 1;
      }
    }

    /** Chooses the next due instant and the next status. */
    method Reschedule(plan: Plan, remaining: Option<int>, attempted: int, left: int, call: Call) returns (next: Plan)
      requires remaining.Some? <==> plan.maxPerDay.Some?
      ensures next == NextPlan(plan, remaining, attempted, left, call)
    {
      next := plan;
      if left == 0 {
        next := next.(status := Completed, completedAt := Some(call.later), nextIntervalAt := None);
      } else if plan.status == Paused {
        next := next.(nextIntervalAt := TimePtr(call.now + IntervalDuration(plan.intervalMinutes)));
      } else {
        var capacityAfter: Option<int> := None;
        if remaining.Some? {
          var v := remaining.value - attempted;
          if v < 0 {
            v := 0;
          }
          capacityAfter := Some(v);
        }
        next := next.(status := Scheduled);
        if plan.maxPerDay.Some? && capacityAfter == Some(0) {
          next := next.(nextIntervalAt := TimePtr(StartOfNextUtcDay(call.now)));
        } else {
          next := next.(nextIntervalAt := TimePtr(call.now + IntervalDuration(plan.intervalMinutes)));
        }
      }
    }

    /** Stores the advance row, unless nobody was dealt with, and then the plan row. */
    method RecordAdvance(planId: nat, ghost r: PlanRecord, plan: Plan, remaining: Option<int>, call: Call,
                         ghost n: nat, t: Tallies, mail: seq<Mail>, pendingAfter: nat)
      returns (error: Option<PlanError>)
      requires planId in st.records && plan == r.plan == st.records[planId].plan
      requires n <= |PendingRows(r.recipients)| && pendingAfter == |PendingRows(r.recipients)| - n
      requires t == TalliesOf(call.world, n) && mail == LoopMail(r, call, n)
      requires remaining == RemainingToday(r, call.now)
      modifies st
      ensures var o := RecordBatch(r, old(st.records[planId]), call, n);
              error == o.error && st.records == old(st.records)[planId := o.record]
    {
      var next := plan;
      ProcessedIff(call.world, n);
      if t.attempted > 0 || t.skipped > 0 || t.failed > 0 {
        var advance := Advance(plan.advancedIntervals + 1, call.manual, t.attempted, t.sent, t.skipped, t.failed,
                               pendingAfter, call.now);
        var stored := st.InsertAdvance(planId, advance, call.faults.insert);
        if !stored {
          if call.faults.insert == Lost {
            NotedUnrecorded(st.records[planId], mail);
            st.Note(planId, Trace([], [], mail));
          }
          return Some(StoreFailed);
        }
        next := next.(advancedIntervals := plan.advancedIntervals + 1, lastAdvancedAt := Some(call.later));
      }
      next := Reschedule(next, remaining, t.attempted, pendingAfter, call);
      var stored := st.UpdateEmailPlanStatus(planId, next, call.faults.plan);
      error := if stored then None else Some(StoreFailed);
    }

    method ListPending(planId: nat) returns (pend: seq<Recipient>)
      requires planId in st.records && FinishedPrefix(st.records[planId].recipients)
      ensures pend == PendingRows(st.records[planId].recipients)
      ensures forall j :: 0 <= j < |pend| ==> pend[j].status == Pending
    {
      pend := st.ListPendingRecipients(planId);
      ghost var rows := st.records[planId].recipients;
      PendingSuffix(rows);
      PendingAreTheSuffix(rows, FirstPending(rows));
    }

    /** The part of an advance that sends: the loop, the advance row, the plan row. */
    method SendAndRecord(planId: nat, plan: Plan, remaining: Option<int>, call: Call) returns (error: Option<PlanError>)
      requires planId in st.records
      requires FinishedPrefix(st.records[planId].recipients) && DistinctIds(st.records[planId].recipients)
      requires plan == st.records[planId].plan && remaining == RemainingToday(st.records[planId], call.now)
      modifies st
      ensures var o := AdvanceBatch(old(st.records[planId]), call);
              error == o.error && st.records == old(st.records)[planId := o.record]
    {
      ghost var r, b := st.records[planId], BatchOf(st.records[planId], call);
      var sendCapacity := plan.maxPerInterval;
      if remaining.Some? && remaining.value < sendCapacity {
        sendCapacity := remaining.value;
      }
      var pend := ListPending(planId);
      NothingYet(r, call);
      var ok, recipients, t, mail := SendLoop(planId, r, plan.advancedIntervals + 1, sendCapacity, pend, call, b);
      if !ok {
        return Some(StoreFailed);
      }
      var pendingAfter := CountLeft(pend, call.world, b.processed, recipients, t);
      error := RecordAdvance(planId, r, plan, remaining, call, b.processed, t, mail, pendingAfter);
    }

    /**
      Fails with NoTargets when nobody is left to write to; otherwise stores the plan that
      NewRecord describes, with one pending row per account.
    */
    method CreatePlan(planId: nat, command: Command, broadcastToAll: bool, requested: set<nat>, directory: Directory,
                      stamps: seq<Stamp>, now: Instant, w: Write) returns (error: Option<PlanError>)
      requires st.Valid() && planId !in st.records && DistinctStamps(stamps)
      requires directory.Answered? ==> |directory.accounts| <= |stamps|
      modifies st
      ensures st.Valid()
      ensures match Resolved(broadcastToAll, requested, directory)
              case None => error == Some(DirectoryFailed) && st.records == old(st.records)
              case Some(targets) =>
                if targets == [] then error == Some(NoTargets) && st.records == old(st.records)
                else
                  && error == (if w == Stored then None else Some(StoreFailed))
                  && st.records == if w == Lost then old(st.records)
                                   else old(st.records)[planId := NewRecord(command, targets, stamps[..|targets|], now)]
    {
      var targets := ResolveTargetAccounts(broadcastToAll, requested, directory);
      if targets == None {
        return Some(DirectoryFailed);
      }
      if targets.value == [] {
        return Some(NoTargets);
      }
      CreatedIsSafe(command, targets.value, stamps[..|targets.value|], now);
      var ok := StoreNewPlan(planId, command, targets.value, stamps[..|targets.value|], now, w);
      error := if ok then None else Some(StoreFailed);
    }

    /** The plan row and one pending row per target, in one transaction. */
    method StoreNewPlan(planId: nat, command: Command, targets: seq<Target>, stamps: seq<Stamp>, now: Instant, w: Write)
      returns (ok: bool)
      requires planId !in st.records && |stamps| == |targets|
      modifies st
      ensures ok == (w == Stored)
      ensures st.records == if w == Lost then old(st.records)
                            else old(st.records)[planId := NewRecord(command, targets, stamps, now)]
    {
      var plannedStartAt := now;
      if command.plannedStartAt.Some? {
        plannedStartAt := command.plannedStartAt.value;
      }
      var plan := Plan(|targets|, command.maxPerInterval, command.intervalMinutes, command.maxPerDay,
                       Scheduled, 0, TimePtr(plannedStartAt), None, None, None);
      var rows: seq<Recipient> := [];
      var i := 0;
      while i < |targets|
        invariant 0 <= i <= |targets| && |rows| == i
        invariant forall j :: 0 <= j < i ==> rows[j] == FreshRow(targets[j], stamps[j])
      {
        rows := rows + [FreshRow(targets[i], stamps[i])];
        i := i + 1;
      }
      InsertedIsFresh(targets, stamps, rows);
      ok := st.CreateEmailPlan(planId, plan, rows, w);
    }

    method PausePlan(planId: nat, now: Instant, w: Write) returns (error: Option<PlanError>)
      requires st.Valid()
      modifies st
      ensures st.Valid()
      ensures planId !in old(st.records) ==> error == Some(PlanNotFound) && st.records == old(st.records)
      ensures planId in old(st.records) ==>
                var o := Pause(old(st.records[planId]), now, w);
                error == o.error && st.records == old(st.records)[planId := o.record]
      ensures planId in old(st.records) ==>
                var plan := old(st.records[planId].plan);
                if plan.status == Completed then
                  error == Some(CompletedCannotPause) && st.records == old(st.records)
                else
                  && (error == None <==> w == Stored)
                  && st.records[planId].plan
                     == if w == Lost then plan else plan.(status := Paused, pausedAt := Some(now))
    {
      var plan := st.GetEmailPlan(planId);
      if plan == None {
        return Some(PlanNotFound);
      }
      StepKeepsSafe(st.records[planId], DoPause(now, w));
      if plan.value.status == Completed {
        return Some(CompletedCannotPause);
      }
      var next := plan.value.(status := Paused, pausedAt := Some(now));
      var ok := st.UpdateEmailPlanStatus(planId, next, w);
      error := if ok then None else Some(StoreFailed);
    }

    method ResumePlan(planId: nat, now: Instant, w: Write) returns (error: Option<PlanError>)
      requires st.Valid()
      modifies st
      ensures st.Valid()
      ensures planId !in old(st.records) ==> error == Some(PlanNotFound) && st.records == old(st.records)
      ensures planId in old(st.records) ==>
                var o := Resume(old(st.records[planId]), now, w);
                error == o.error && st.records == old(st.records)[planId := o.record]
      ensures planId in old(st.records) ==>
                var plan, after := old(st.records[planId].plan), st.records[planId].plan;
                if plan.status == Completed then
                  error == Some(CompletedCannotResume) && st.records == old(st.records)
                else
                  && (error == None <==> w == Stored)
                  && (w == Lost ==> after == plan)
                  && (w != Lost ==>
                        && after == plan.(status := Scheduled, pausedAt := None, nextIntervalAt := after.nextIntervalAt)
                        && (plan.nextIntervalAt.Some? && plan.nextIntervalAt.value >= now ==>
                              after.nextIntervalAt == plan.nextIntervalAt)
                        && (now != 0 && (plan.nextIntervalAt == None || plan.nextIntervalAt.value < now) ==>
                              after.nextIntervalAt == Some(now)))
    {
      var plan := st.GetEmailPlan(planId);
      if plan == None {
        return Some(PlanNotFound);
      }
      StepKeepsSafe(st.records[planId], DoResume(now, w));
      if plan.value.status == Completed {
        return Some(CompletedCannotResume);
      }
      var next := plan.value.(status := Scheduled, pausedAt := None);
      if next.nextIntervalAt.None? || next.nextIntervalAt.value < now {
        next := next.(nextIntervalAt := TimePtr(now));
      }
      var ok := st.UpdateEmailPlanStatus(planId, next, w);
      error := if ok then None else Some(StoreFailed);
    }

    method AdvancePlanInterval(planId: nat, call: Call) returns (error: Option<PlanError>)
      requires st.Valid()
      modifies st
      ensures st.Valid()
      ensures planId !in old(st.records) ==> error == Some(PlanNotFound) && st.records == old(st.records)
      ensures planId in old(st.records) ==>
                var o := AdvancePlan(old(st.records[planId]), call);
                error == o.error && st.records == old(st.records)[planId := o.record]
    {
      var found := st.GetEmailPlan(planId);
      if found == None {
        return Some(PlanNotFound);
      }
      StepKeepsSafe(st.records[planId], DoAdvance(call));
      error := AdvanceFound(planId, found.value, call);
    }

    method AdvanceFound(planId: nat, plan: Plan, call: Call) returns (error: Option<PlanError>)
      requires planId in st.records && plan == st.records[planId].plan
      requires FinishedPrefix(st.records[planId].recipients) && DistinctIds(st.records[planId].recipients)
      modifies st
      ensures var o := AdvancePlan(old(st.records[planId]), call);
              error == o.error && st.records == old(st.records)[planId := o.record]
    {
      if plan.status == Completed {
        return Some(CompletedCannotAdvance);
      }
      if !call.manual && plan.status == Paused {
        return Some(PausedCannotAdvance);
      }
      if !call.manual && plan.nextIntervalAt.Some? && plan.nextIntervalAt.value > call.now {
        return Some(NotDueYet);
      }
      var pendingCountBefore := st.CountPendingRecipients(planId);
      PendingSuffix(st.records[planId].recipients);
      PendingAreTheSuffix(st.records[planId].recipients, FirstPending(st.records[planId].recipients));
      if pendingCountBefore == 0 {
        var next := plan.(status := Completed, nextIntervalAt := None);
        if plan.completedAt == None {
          next := next.(completedAt := Some(call.later));
        }
        var ok := st.UpdateEmailPlanStatus(planId, next, call.faults.plan);
        return if ok then None else Some(StoreFailed);
      }
      var remaining := GetRemainingDailyCapacity(planId, plan, call.now);
      if remaining == Some(0) {
        var next := plan;
        if plan.status != Paused {
          next := next.(nextIntervalAt := TimePtr(StartOfNextUtcDay(call.now)));
        }
        var ok := st.UpdateEmailPlanStatus(planId, next, call.faults.plan);
        return if ok then None else Some(StoreFailed);
      }
      error := SendAndRecord(planId, plan, remaining, call);
    }

    /**
      The minute sweep: every plan that is due at `now` is advanced once, automatically, with its
      own clock reading and answers; no other plan is touched, and no error stops the sweep.
    */
    method AdvanceDuePlans(now: Instant, calls: nat -> Call) returns (due: seq<nat>)
      requires st.Valid()
      modifies st
      ensures st.Valid() && st.records.Keys == old(st.records).Keys
      ensures Distinct(due)
      ensures forall id :: id in due <==>
                && id in old(st.records) && old(st.records[id]).plan.status == Scheduled
                && old(st.records[id]).plan.nextIntervalAt.Some? && old(st.records[id]).plan.nextIntervalAt.value <= now
      ensures forall i :: 0 <= i < |due| ==>
                st.records[due[i]] == AdvancePlan(old(st.records)[due[i]], calls(i).(manual := false)).record
      ensures forall id :: id in old(st.records) && id !in due ==> st.records[id] == old(st.records)[id]
    {
      ghost var before := st.records;
      due := st.ListDuePlans(now);
      var i := 0;
      while i < |due|
        invariant 0 <= i <= |due| && st.Valid() && st.records.Keys == before.Keys
        invariant forall j :: 0 <= j < i ==>
                    st.records[due[j]] == AdvancePlan(before[due[j]], calls(j).(manual := false)).record
        invariant forall id :: id in before && id !in due[..i] ==> st.records[id] == before[id]
      {
        assert due[i] !in due[..i];
        var error := AdvancePlanInterval(due[i], calls(i).(manual := false));
        i := i + 1;
      }
    }
  }

  lemma CreatedIsSafe(command: Command, targets: seq<Target>, stamps: seq<Stamp>, now: Instant)
    requires targets != [] && |stamps| == |targets| && DistinctStamps(stamps)
    ensures Safe(NewRecord(command, targets, stamps, now))
  {
    CreatedIsStrict(command, targets, stamps, now);
  }

  /** Inserting the rows one by one gives the rows of a new plan. */
  lemma {:induction false} InsertedIsFresh(targets: seq<Target>, stamps: seq<Stamp>, rows: seq<Recipient>)
    requires |stamps| == |targets| == |rows|
    requires forall j :: 0 <= j < |rows| ==> rows[j] == FreshRow(targets[j], stamps[j])
    ensures Inserted(rows, |rows|) == FreshRows(targets, stamps)
  {
    if targets != [] {
      var n := |targets| - 1;
      InsertedIsFresh(targets[..n], stamps[..n], rows[..n]);
      InsertedPrefix(rows, n);
    }
  }

  lemma {:induction false} InsertedPrefix(rows: seq<Recipient>, n: nat)
    requires n < |rows|
    ensures Inserted(rows[..|rows| - 1], n) == Inserted(rows, n)
  {
    if n > 0 {
      InsertedPrefix(rows, n - 1);
    }
  }

  lemma NotedUnrecorded(r: PlanRecord, mail: seq<Mail>)
    ensures Noted(r, Trace([], [], mail)) == r.(trace := r.trace.(unrecorded := r.trace.unrecorded + mail))
  {
    assert r.trace.mail + [] == r.trace.mail;
    assert r.trace.failedUpdates + [] == r.trace.failedUpdates;
  }

  lemma ProcessedIff(world: World, n: nat)
    ensures n > 0 <==> Attempts(world, n) > 0 || Tally(world, n, Skipped) > 0 || Tally(world, n, Failed) > 0
  {
    ReachDealsWithAll(world, n);
  }
}
