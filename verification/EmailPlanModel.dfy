/**
  The email sending plan as a state machine on values: the rows of one plan, what the outside
  world answers, and the effect of every operation.
*/
module EmailPlanModel {
  import opened Basics
  import opened Database
  import opened UtcClock

  datatype PlanStatus = Scheduled | Paused | Completed

  datatype RecipientStatus = Pending | Sent | Skipped | Failed

  datatype Plan = Plan(
    recipientCount: int,
    maxPerInterval: int,
    intervalMinutes: int,
    maxPerDay: Option<int>,
    status: PlanStatus,
    advancedIntervals: int,
    nextIntervalAt: Option<Instant>,
    lastAdvancedAt: Option<Instant>,
    pausedAt: Option<Instant>,
    completedAt: Option<Instant>)

  datatype Recipient = Recipient(
    id: nat,
    createdAt: Instant,
    accountId: nat,
    status: RecipientStatus,
    attemptCount: int,
    lastInterval: Option<int>,
    resolvedEmail: Option<string>,
    lastError: Option<string>)

  datatype Advance = Advance(
    intervalNumber: int,
    isManual: bool,
    attempted: int,
    sent: int,
    skipped: int,
    failed: int,
    pendingAfter: int,
    startedAt: Instant)

  /** One message handed to the SMTP sender, accepted or not. */
  datatype Mail = Mail(recipientId: nat, startedAt: Instant, address: string)

  /**
    What happened outside the tables: every submission to the SMTP sender, the recipients whose
    update returned an error, and the submissions of advances whose row was never stored.
  */
  datatype Trace = Trace(mail: seq<Mail>, failedUpdates: seq<nat>, unrecorded: seq<Mail>)

  /** The rows of one plan; recipients are kept in (created_at, id) order. */
  datatype PlanRecord = PlanRecord(
    plan: Plan,
    recipients: seq<Recipient>,
    advances: seq<Advance>,
    trace: Trace)

  datatype Contact = Contact(content: string, isPrimary: bool, verifiedAt: Option<Instant>)

  /** The answer of the account service and of the SMTP sender for one recipient. */
  datatype Reply = Reply(contacts: seq<Contact>, accepted: bool, error: string)

  /** Replies by position in the pending list; nothing relates the answers of two advances. */
  type World = nat -> Reply

  datatype Faults = Faults(update: nat -> Write, insert: Write, plan: Write)

  datatype PlanError =
    | NoTargets
    | DirectoryFailed
    | PlanNotFound
    | CompletedCannotPause
    | CompletedCannotResume
    | CompletedCannotAdvance
    | PausedCannotAdvance
    | NotDueYet
    | StoreFailed

  datatype Outcome = Outcome(record: PlanRecord, error: Option<PlanError>)

  // ---------------------------------------------------------------- contacts

  predicate VerifiedAfter(a: Contact, b: Contact) {
    a.verifiedAt.Some? && (b.verifiedAt.None? || b.verifiedAt.value < a.verifiedAt.value)
  }

  /** A challenger replaces the contact held so far. */
  predicate Preferred(challenger: Contact, held: Contact) {
    if challenger.isPrimary != held.isPrimary
    then challenger.isPrimary
    else VerifiedAfter(challenger, held)
  }

  function BestContact(contacts: seq<Contact>): Contact
    requires contacts != []
  {
    var last := contacts[|contacts| - 1];
    if |contacts| == 1 then last
    else
      var held := BestContact(contacts[..|contacts| - 1]);
      if Preferred(last, held) then last else held
  }

  /**
    Contact k is the one to write to: a primary one if there is any, among these the one verified
    last, and of several such the first.
  */
  ghost predicate IsChosen(contacts: seq<Contact>, k: nat) {
    && k < |contacts|
    && (forall j :: 0 <= j < |contacts| && contacts[j].isPrimary ==> contacts[k].isPrimary)
    && (forall j :: 0 <= j < |contacts| && contacts[j].isPrimary == contacts[k].isPrimary ==>
          contacts[j].verifiedAt.Some? ==>
            contacts[k].verifiedAt.Some? && contacts[j].verifiedAt.value <= contacts[k].verifiedAt.value)
    && (forall j :: 0 <= j < k && contacts[j].isPrimary == contacts[k].isPrimary ==>
          && contacts[k].verifiedAt.Some?
          && (contacts[j].verifiedAt.Some? ==> contacts[j].verifiedAt.value < contacts[k].verifiedAt.value))
  }

  /** The chosen contact is the first of the most preferred ones. */
  lemma {:induction false} BestContactIsFirstMaximal(contacts: seq<Contact>) returns (i: nat)
    requires contacts != []
    ensures IsChosen(contacts, i) && BestContact(contacts) == contacts[i]
  {
    var n := |contacts| - 1;
    if n == 0 {
      i := 0;
    } else {
      i := BestContactIsFirstMaximal(contacts[..n]);
      if Preferred(contacts[n], contacts[i]) {
        i := n;
      }
    }
  }

  // ---------------------------------------------------------------- one recipient

  predicate Reachable(reply: Reply) {
    reply.contacts != []
  }

  function Verdict(reply: Reply): RecipientStatus {
    if !Reachable(reply) then Skipped else if reply.accepted then Sent else Failed
  }

  function Truncate(s: string, maxLength: nat): string {
    if |s| <= maxLength then s else s[..maxLength]
  }

  const NO_CONTACT := "No verified email contact is available."
  const MAX_ERROR: nat := 4096

  /** The recipient row once interval k has dealt with it. */
  function Settle(r: Recipient, k: int, reply: Reply): (s: Recipient)
    ensures s.id == r.id && s.createdAt == r.createdAt && s.accountId == r.accountId
    ensures s.attemptCount == r.attemptCount + 1 && s.lastInterval == Some(k) && s.status == Verdict(reply)
  {
    var touched := r.(attemptCount := r.attemptCount + 1, lastInterval := Some(k), status := Verdict(reply));
    if !Reachable(reply) then touched.(lastError := Some(NO_CONTACT))
    else touched.(resolvedEmail := Some(BestContact(reply.contacts).content),
                  lastError := if reply.accepted then None else Some(Truncate(reply.error, MAX_ERROR)))
  }

  /** What the row of a pending recipient tells once interval k has dealt with it. */
  ghost predicate Tells(before: Recipient, after: Recipient, k: int, reply: Reply) {
    && after.id == before.id && after.createdAt == before.createdAt && after.accountId == before.accountId
    && after.attemptCount == before.attemptCount + 1 && after.lastInterval == Some(k)
    && if reply.contacts == [] then
         && after.status == Skipped && after.resolvedEmail == before.resolvedEmail
         && after.lastError == Some("No verified email contact is available.")
       else
         && (exists c: nat :: IsChosen(reply.contacts, c) && after.resolvedEmail == Some(reply.contacts[c].content))
         && if reply.accepted then after.status == Sent && after.lastError == None
            else after.status == Failed && after.lastError == Some(reply.error[..Min(4096, |reply.error|)])
  }

  lemma SettleTells(r: Recipient, k: int, reply: Reply)
    ensures Tells(r, Settle(r, k, reply), k, reply)
  {
    assert |reply.error| <= 4096 ==> reply.error[..Min(4096, |reply.error|)] == reply.error;
    if reply.contacts != [] {
      var c := BestContactIsFirstMaximal(reply.contacts);
      assert reply.contacts[c].content == BestContact(reply.contacts).content;
    }
  }

  // ---------------------------------------------------------------- the send loop

  /** How many of the first n replies end in verdict s. */
  function Tally(world: World, n: nat, s: RecipientStatus): nat {
    if n == 0 then 0 else Tally(world, n - 1, s) + if Verdict(world(n - 1)) == s then 1 else 0
  }

  function Attempts(world: World, n: nat): nat {
    Tally(world, n, Sent) + Tally(world, n, Failed)
  }

  /** Where a loop over m pending recipients with room for `cap` attempts stops by itself. */
  function StopAt(world: World, cap: int, m: nat, i: nat): (stop: nat)
    requires i <= m
    ensures i <= stop <= m
    decreases m - i
  {
    if i == m || Attempts(world, i) >= cap then i else StopAt(world, cap, m, i + 1)
  }

  /** The first update that fails before `stop`, or `stop`. */
  function FirstFault(update: nat -> Write, stop: nat, i: nat): (f: nat)
    requires i <= stop
    ensures i <= f <= stop
    decreases stop - i
  {
    if i == stop || update(i) != Stored then i else FirstFault(update, stop, i + 1)
  }

  /** How many recipients one advance deals with, and whether a failed update cut it short. */
  datatype Batch = Batch(processed: nat, broken: bool)

  function RunBatch(world: World, cap: int, m: nat, update: nat -> Write): (b: Batch)
    ensures b.processed <= m
    ensures b.broken ==> b.processed > 0 && update(b.processed - 1) != Stored
  {
    var stop := StopAt(world, cap, m, 0);
    var f := FirstFault(update, stop, 0);
    if f < stop
    then assert update(f) != Stored by { FirstFaultIs(update, stop, 0); } Batch(f + 1, true)
    else Batch(stop, false)
  }

  lemma FirstFaultIs(update: nat -> Write, stop: nat, i: nat)
    requires i <= stop
    ensures forall j :: i <= j < FirstFault(update, stop, i) ==> update(j) == Stored
    ensures FirstFault(update, stop, i) < stop ==> update(FirstFault(update, stop, i)) != Stored
    decreases stop - i
  {
  }

  /** The pending rows after the first n were dealt with and their updates ended as told. */
  function SettledRows(pend: seq<Recipient>, k: int, world: World, update: nat -> Write, n: nat): seq<Recipient> {
    seq(|pend|, i requires 0 <= i < |pend| =>
      if i < n && update(i) != Lost then Settle(pend[i], k, world(i)) else pend[i])
  }

  /** The message to one recipient, if there is an address. */
  function Submission(id: nat, now: Instant, reply: Reply): seq<Mail> {
    if Reachable(reply) then [Mail(id, now, BestContact(reply.contacts).content)] else []
  }

  function MailFor(pend: seq<Recipient>, world: World, now: Instant, n: nat): seq<Mail>
    requires n <= |pend|
  {
    if n == 0 then []
    else MailFor(pend, world, now, n - 1) + Submission(pend[n - 1].id, now, world(n - 1))
  }

  // ---------------------------------------------------------------- queries

  predicate Finished(r: Recipient) {
    r.status != Pending
  }

  /** Index of the first pending recipient. */
  function FirstPending(rows: seq<Recipient>): (p: nat)
    ensures p <= |rows|
    ensures p < |rows| ==> rows[p].status == Pending
    ensures forall i :: 0 <= i < p ==> Finished(rows[i])
  {
    if rows == [] || rows[0].status == Pending then 0 else 1 + FirstPending(rows[1..])
  }

  function PendingRows(rows: seq<Recipient>): seq<Recipient> {
    rows[FirstPending(rows)..]
  }

  /** Among the first n rows, those with status s. */
  function CountStatus(rows: seq<Recipient>, n: nat, s: RecipientStatus): nat
    requires n <= |rows|
  {
    if n == 0 then 0 else CountStatus(rows, n - 1, s) + if rows[n - 1].status == s then 1 else 0
  }

  lemma {:induction false} StatusesAddUp(rows: seq<Recipient>, n: nat)
    requires n <= |rows|
    ensures CountStatus(rows, n, Pending) + CountStatus(rows, n, Sent) + CountStatus(rows, n, Skipped)
            + CountStatus(rows, n, Failed) == n
  {
    if n > 0 {
      StatusesAddUp(rows, n - 1);
    }
  }

  function AttemptedWithin(advances: seq<Advance>, lo: Instant, hi: Instant): int {
    if advances == [] then 0
    else
      var last := advances[|advances| - 1];
      AttemptedWithin(advances[..|advances| - 1], lo, hi)
      + if lo <= last.startedAt < hi then last.attempted else 0
  }

  function AttemptedOn(advances: seq<Advance>, day: int): int {
    AttemptedWithin(advances, day * DAY, (day + 1) * DAY)
  }

  /** None when the plan has no daily limit. */
  function RemainingToday(r: PlanRecord, now: Instant): Option<int> {
    match r.plan.maxPerDay
    case None => None
    case Some(m) => Some(Max(0, m - AttemptedOn(r.advances, DayOf(now))))
  }

  function SendCapacity(plan: Plan, remaining: Option<int>): int {
    if remaining.Some? && remaining.value < plan.maxPerInterval then remaining.value else plan.maxPerInterval
  }

  // ---------------------------------------------------------------- operations

  function WritePlan(r: PlanRecord, plan: Plan, w: Write): Outcome {
    Outcome(if w == Lost then r else r.(plan := plan), if w == Stored then None else Some(StoreFailed))
  }

  function Pause(r: PlanRecord, now: Instant, w: Write): Outcome {
    if r.plan.status == Completed then Outcome(r, Some(CompletedCannotPause))
    else WritePlan(r, r.plan.(status := Paused, pausedAt := Some(now)), w)
  }

  function Resume(r: PlanRecord, now: Instant, w: Write): Outcome {
    if r.plan.status == Completed then Outcome(r, Some(CompletedCannotResume))
    else
      var next := if r.plan.nextIntervalAt.None? || r.plan.nextIntervalAt.value < now
                  then TimePtr(now) else r.plan.nextIntervalAt;
      WritePlan(r, r.plan.(status := Scheduled, pausedAt := None, nextIntervalAt := next), w)
  }

  /** Everything one call to advance depends on besides the tables. */
  datatype Call = Call(manual: bool, now: Instant, later: Instant, world: World, faults: Faults)

  function Rejection(plan: Plan, call: Call): Option<PlanError> {
    if plan.status == Completed then Some(CompletedCannotAdvance)
    else if !call.manual && plan.status == Paused then Some(PausedCannotAdvance)
    else if !call.manual && plan.nextIntervalAt.Some? && plan.nextIntervalAt.value > call.now then Some(NotDueYet)
    else None
  }

  function CompletedAgain(plan: Plan, later: Instant): Plan {
    plan.(status := Completed,
          completedAt := if plan.completedAt.None? then Some(later) else plan.completedAt,
          nextIntervalAt := None)
  }

  function Postponed(plan: Plan, now: Instant): Plan {
    if plan.status == Paused then plan else plan.(nextIntervalAt := TimePtr(StartOfNextUtcDay(now)))
  }

  /** The plan after an advance that attempted `attempted` sends and left `left` recipients pending. */
  function NextPlan(plan: Plan, remaining: Option<int>, attempted: int, left: int, call: Call): Plan {
    var after := call.now + IntervalDuration(plan.intervalMinutes);
    if left == 0 then
      plan.(status := Completed, completedAt := Some(call.later), nextIntervalAt := None)
    else if plan.status == Paused then
      plan.(nextIntervalAt := TimePtr(after))
    else if remaining.Some? && Max(0, remaining.value - attempted) == 0 then
      plan.(status := Scheduled, nextIntervalAt := TimePtr(StartOfNextUtcDay(call.now)))
    else
      plan.(status := Scheduled, nextIntervalAt := TimePtr(after))
  }

  /** The recipient rows after the send loop. */
  function LoopRecipients(r: PlanRecord, call: Call, b: Batch): seq<Recipient> {
    var p := FirstPending(r.recipients);
    r.recipients[..p]
    + SettledRows(r.recipients[p..], r.plan.advancedIntervals + 1, call.world, call.faults.update, b.processed)
  }

  function LoopMail(r: PlanRecord, call: Call, n: nat): seq<Mail>
    requires n <= |PendingRows(r.recipients)|
  {
    MailFor(PendingRows(r.recipients), call.world, call.now, n)
  }

  function LoopTrace(r: PlanRecord, call: Call, b: Batch): Trace
    requires b.processed <= |PendingRows(r.recipients)|
    requires b.broken ==> b.processed > 0
  {
    var mail := LoopMail(r, call, b.processed);
    Trace(r.trace.mail + mail,
          r.trace.failedUpdates + if b.broken then [PendingRows(r.recipients)[b.processed - 1].id] else [],
          r.trace.unrecorded + if b.broken then mail else [])
  }

  /** The record after the send loop: advances and plan untouched. */
  function AfterLoop(r: PlanRecord, call: Call, b: Batch): PlanRecord
    requires b.processed <= |PendingRows(r.recipients)|
    requires b.broken ==> b.processed > 0
  {
    PlanRecord(r.plan, LoopRecipients(r, call, b), r.advances, LoopTrace(r, call, b))
  }

  function AdvanceRow(r: PlanRecord, call: Call, n: nat): Advance
    requires n <= |PendingRows(r.recipients)|
  {
    Advance(r.plan.advancedIntervals + 1, call.manual, Attempts(call.world, n),
            Tally(call.world, n, Sent), Tally(call.world, n, Skipped), Tally(call.world, n, Failed),
            |PendingRows(r.recipients)| - n, call.now)
  }

  function BatchOf(r: PlanRecord, call: Call): (b: Batch)
    ensures b.processed <= |PendingRows(r.recipients)|
    ensures b.broken ==> b.processed > 0 && call.faults.update(b.processed - 1) != Stored
  {
    RunBatch(call.world, SendCapacity(r.plan, RemainingToday(r, call.now)),
             |PendingRows(r.recipients)|, call.faults.update)
  }

  /** After a loop that dealt with n recipients: the advance row, if n > 0, then the plan row. */
  function RecordBatch(r: PlanRecord, sent: PlanRecord, call: Call, n: nat): Outcome
    requires n <= |PendingRows(r.recipients)|
  {
    if n > 0 && call.faults.insert == Lost then
      Outcome(sent.(trace := sent.trace.(unrecorded := sent.trace.unrecorded + LoopMail(r, call, n))),
              Some(StoreFailed))
    else
      var recorded := if n > 0 then sent.(advances := sent.advances + [AdvanceRow(r, call, n)]) else sent;
      if n > 0 && call.faults.insert == Unacknowledged then
        Outcome(recorded, Some(StoreFailed))
      else
        var counted := if n > 0
                       then r.plan.(advancedIntervals := r.plan.advancedIntervals + 1,
                                    lastAdvancedAt := Some(call.later))
                       else r.plan;
        WritePlan(recorded,
                  NextPlan(counted, RemainingToday(r, call.now), Attempts(call.world, n),
                           |PendingRows(r.recipients)| - n, call),
                  call.faults.plan)
  }

  function AdvanceBatch(r: PlanRecord, call: Call): Outcome {
    var b := BatchOf(r, call);
    if b.broken then Outcome(AfterLoop(r, call, b), Some(StoreFailed))
    else RecordBatch(r, AfterLoop(r, call, b), call, b.processed)
  }

  function AdvancePlan(r: PlanRecord, call: Call): Outcome {
    var rejected := Rejection(r.plan, call);
    if rejected.Some? then
      Outcome(r, rejected)
    else if PendingRows(r.recipients) == [] then
      WritePlan(r, CompletedAgain(r.plan, call.later), call.faults.plan)
    else if RemainingToday(r, call.now) == Some(0) then
      WritePlan(r, Postponed(r.plan, call.now), call.faults.plan)
    else
      AdvanceBatch(r, call)
  }

  // ---------------------------------------------------------------- creation

  datatype Target = Target(accountId: nat, name: string)

  ghost predicate DistinctTargets(targets: seq<Target>) {
    forall i, j :: 0 <= i < j < |targets| ==> targets[i].accountId != targets[j].accountId
  }

  /** Created-at instant and identifier given to one recipient row. */
  datatype Stamp = Stamp(createdAt: Instant, id: nat)

  datatype Command = Command(
    maxPerInterval: int,
    intervalMinutes: int,
    maxPerDay: Option<int>,
    plannedStartAt: Option<Instant>)

  predicate Before(a: Recipient, b: Recipient) {
    a.createdAt < b.createdAt || (a.createdAt == b.createdAt && a.id < b.id)
  }

  /** Insertion at the place the (created_at, id) order gives the row. */
  function InsertRow(rows: seq<Recipient>, r: Recipient): seq<Recipient> {
    if rows == [] || Before(rows[|rows| - 1], r) then rows + [r]
    else InsertRow(rows[..|rows| - 1], r) + [rows[|rows| - 1]]
  }

  function FreshRow(target: Target, stamp: Stamp): Recipient {
    Recipient(stamp.id, stamp.createdAt, target.accountId, Pending, 0, None, None, None)
  }

  function FreshRows(targets: seq<Target>, stamps: seq<Stamp>): seq<Recipient>
    requires |stamps| == |targets|
  {
    if targets == [] then []
    else
      var n := |targets| - 1;
      InsertRow(FreshRows(targets[..n], stamps[..n]), FreshRow(targets[n], stamps[n]))
  }

  function FreshPlan(command: Command, count: nat, now: Instant): Plan {
    var start := match command.plannedStartAt case Some(t) => t case None => now;
    Plan(count, command.maxPerInterval, command.intervalMinutes, command.maxPerDay,
         Scheduled, 0, TimePtr(start), None, None, None)
  }

  function NewRecord(command: Command, targets: seq<Target>, stamps: seq<Stamp>, now: Instant): PlanRecord
    requires |stamps| == |targets|
  {
    PlanRecord(FreshPlan(command, |targets|, now), FreshRows(targets, stamps), [], Trace([], [], []))
  }
}
