/**
  One reader blocked on a stream, with writers, completion, cancellation and the watchers of its
  calls; every step is what one goroutine does under the lock.
*/
module StreamReader {
  import opened SopStreams

  /** Where the reader is in WaitToRead; Starting has spawned the watcher but not yet locked. */
  datatype Phase = Outside | Starting | Parked | Woken | Returned(available: bool)

  /**
    `announced`: the watcher of this call has already broadcast the cancellation.  `leftovers`: the
    watchers of earlier calls that have not finished; a cancelled one may still broadcast, since
    nothing prefers the end of its call to the cancellation.
  */
  datatype Waiting = Waiting(queue: Queue, phase: Phase, cancelled: bool, announced: bool, leftovers: nat)

  ghost predicate Init(s: Waiting) {
    s == Waiting(EMPTY_QUEUE, Outside, false, false, 0)
  }

  function Wake(p: Phase): Phase {
    if p == Parked then Woken else p
  }

  /** The loop condition: wait again, or return whether something is there. */
  function CheckQueue(q: Queue): Phase {
    if q.items == [] && !q.closed then Parked else Returned(q.items != [])
  }

  ghost predicate WriteStep(s: Waiting, t: Waiting, m: nat) {
    t == if s.queue.closed then s else s.(queue := Write(s.queue, m), phase := Wake(s.phase))
  }

  ghost predicate CompleteStep(s: Waiting, t: Waiting) {
    t == if s.queue.closed then s else s.(queue := Complete(s.queue), phase := Wake(s.phase))
  }

  ghost predicate CancelStep(s: Waiting, t: Waiting) {
    t == s.(cancelled := true)
  }

  ghost predicate AnnounceStep(s: Waiting, t: Waiting) {
    && s.cancelled && !s.announced && s.phase != Outside
    && t == s.(phase := Wake(s.phase), announced := true)
  }

  /** A watcher of an earlier call finds both its call over and the request cancelled. */
  ghost predicate LateStep(s: Waiting, t: Waiting) {
    && s.cancelled && s.leftovers > 0
    && t == s.(phase := Wake(s.phase), leftovers := s.leftovers - 1)
  }

  /** A watcher of an earlier call ends quietly. */
  ghost predicate ExpireStep(s: Waiting, t: Waiting) {
    s.leftovers > 0 && t == s.(leftovers := s.leftovers - 1)
  }

  ghost predicate CallStep(s: Waiting, t: Waiting) {
    s.phase == Outside && t == s.(phase := Starting, announced := false)
  }

  ghost predicate EnterStep(s: Waiting, t: Waiting) {
    s.phase == Starting && t == s.(phase := CheckQueue(s.queue))
  }

  ghost predicate ResumeStep(s: Waiting, t: Waiting) {
    s.phase == Woken && t == s.(phase := if s.cancelled then Returned(false) else CheckQueue(s.queue))
  }

  /** The call ends; a watcher that has not spoken is left to itself. */
  ghost predicate LeaveStep(s: Waiting, t: Waiting) {
    && s.phase.Returned?
    && t == s.(phase := Outside, leftovers := if s.announced then s.leftovers else s.leftovers + 1)
  }

  /** Only the reader takes items, and only while it is not waiting. */
  ghost predicate ReadStep(s: Waiting, t: Waiting) {
    s.phase == Outside && t == s.(queue := Read(s.queue))
  }

  ghost predicate Next(s: Waiting, t: Waiting) {
    || (exists m :: WriteStep(s, t, m))
    || CompleteStep(s, t) || CancelStep(s, t)
    || AnnounceStep(s, t) || LateStep(s, t) || ExpireStep(s, t)
    || CallStep(s, t) || EnterStep(s, t) || ResumeStep(s, t) || LeaveStep(s, t) || ReadStep(s, t)
  }

  ghost predicate Behaviour(ss: seq<Waiting>) {
    ss != [] && Init(ss[0]) && forall i :: 0 <= i < |ss| - 1 ==> Next(ss[i], ss[i + 1])
  }

  // ---------------------------------------------------------------- writes and completion

  /**
    A parked reader has nothing to read and nothing to return for; an answer `true` is backed by an
    item, and `false` means cancelled or completed and empty.
  */
  ghost predicate NoLostWakeup(s: Waiting) {
    && Fifo(s.queue)
    && (s.announced && s.phase != Outside ==> s.cancelled)
    && (s.phase == Parked ==> s.queue.items == [] && !s.queue.closed)
    && (s.phase == Returned(true) ==> s.queue.items != [])
    && (s.phase == Returned(false) ==> s.cancelled || (s.queue.items == [] && s.queue.closed))
  }

  lemma NextKeepsWakeups(s: Waiting, t: Waiting)
    requires NoLostWakeup(s) && Next(s, t)
    ensures NoLostWakeup(t)
  {
    if m :| WriteStep(s, t, m) {
      OperationsKeepFifo(s.queue, m);
    } else {
      OperationsKeepFifo(s.queue, 0);
    }
  }

  /** In every interleaving no write and no completion is slept through. */
  lemma {:induction false} NoWakeupIsLost(ss: seq<Waiting>, i: nat)
    requires Behaviour(ss) && i < |ss|
    ensures NoLostWakeup(ss[i])
  {
    if i > 0 {
      NoWakeupIsLost(ss, i - 1);
      NextKeepsWakeups(ss[i - 1], ss[i]);
    }
  }

  // ---------------------------------------------------------------- cancellation

  /** The reader waits although it was cancelled and its own watcher has nothing more to say. */
  predicate SleepsThrough(s: Waiting) {
    s.phase == Parked && s.cancelled && s.announced
  }

  /** The watcher speaks to a reader that is not there yet, and the reader then parks. */
  predicate ParksTooLate(s: Waiting, t: Waiting) {
    s.phase == Starting && s.announced && t.phase == Parked
  }

  lemma FallsAsleepIff(s: Waiting, t: Waiting)
    requires NoLostWakeup(s) && Next(s, t)
    ensures !SleepsThrough(s) && SleepsThrough(t) <==> ParksTooLate(s, t)
    ensures SleepsThrough(t) ==> SleepsThrough(s) || ParksTooLate(s, t)
  {
    if m :| WriteStep(s, t, m) {
    }
  }

  /** The reader has been parked ever since step k, at which its watcher had already spoken. */
  ghost predicate ParkedTooLateAt(ss: seq<Waiting>, k: nat, i: nat) {
    && k < i < |ss| && ParksTooLate(ss[k], ss[k + 1])
    && forall j :: k < j <= i ==> ss[j].phase == Parked
  }

  ghost predicate ParkedTooLate(ss: seq<Waiting>, i: nat) {
    exists k :: ParkedTooLateAt(ss, k, i)
  }

  /**
    Exactly when a cancellation is slept through: in every interleaving, the reader sleeps through
    it if and only if the watcher of its call had spoken before the reader parked, and the reader
    has been parked since.
  */
  lemma {:induction false} CancellationMissedIff(ss: seq<Waiting>, i: nat)
    requires Behaviour(ss) && i < |ss|
    ensures SleepsThrough(ss[i]) <==> ParkedTooLate(ss, i)
  {
    if i > 0 {
      NoWakeupIsLost(ss, i - 1);
      CancellationMissedIff(ss, i - 1);
      FallsAsleepIff(ss[i - 1], ss[i]);
      if SleepsThrough(ss[i]) {
        StillParked(ss, i);
      }
      if k :| ParkedTooLateAt(ss, k, i) {
        StaysAsleep(ss, k, i);
      }
    }
  }

  lemma StillParked(ss: seq<Waiting>, i: nat)
    requires 0 < i < |ss| && SleepsThrough(ss[i])
    requires SleepsThrough(ss[i - 1]) ==> ParkedTooLate(ss, i - 1)
    requires SleepsThrough(ss[i - 1]) || ParksTooLate(ss[i - 1], ss[i])
    ensures ParkedTooLate(ss, i)
  {
    if SleepsThrough(ss[i - 1]) {
      var k :| ParkedTooLateAt(ss, k, i - 1);
      assert ParkedTooLateAt(ss, k, i);
    } else {
      assert ParkedTooLateAt(ss, i - 1, i);
    }
  }

  lemma StaysAsleep(ss: seq<Waiting>, k: nat, i: nat)
    requires Behaviour(ss) && ParkedTooLateAt(ss, k, i)
    requires SleepsThrough(ss[i - 1]) <==> ParkedTooLate(ss, i - 1)
    requires ParksTooLate(ss[i - 1], ss[i]) ==> SleepsThrough(ss[i])
    ensures SleepsThrough(ss[i])
  {
    if k < i - 1 {
      assert ParkedTooLateAt(ss, k, i - 1);
      assert Next(ss[i - 1], ss[i]);
      ParkedKeepsCancelled(ss[i - 1], ss[i]);
    }
  }

  lemma ParkedKeepsCancelled(s: Waiting, t: Waiting)
    requires SleepsThrough(s) && Next(s, t) && t.phase == Parked
    ensures SleepsThrough(t)
  {
    if m :| WriteStep(s, t, m) {
    }
  }

  /** An announcement made to a parked reader wakes it, and it returns that it was cancelled. */
  lemma AnnouncementWakes(s: Waiting, t: Waiting, u: Waiting)
    requires s.phase == Parked && AnnounceStep(s, t)
    ensures t.phase == Woken && (ResumeStep(t, u) ==> u.phase == Returned(false))
  {
  }

  /** What ends such a sleep: a write, the completion, or a watcher left over from an earlier call. */
  lemma SleepEndsIff(s: Waiting, t: Waiting)
    requires NoLostWakeup(s) && Next(s, t) && SleepsThrough(s)
    ensures t.phase != Parked <==> t.queue != s.queue || LateStep(s, t)
  {
    if m :| WriteStep(s, t, m) {
      assert |t.queue.items| == |s.queue.items| + 1;
    }
  }

  /** Without leftover watchers, only traffic on the stream ends it, however long the run. */
  lemma {:induction false} SleepsUntilTraffic(ss: seq<Waiting>, i: nat, j: nat)
    requires Behaviour(ss) && i <= j < |ss|
    requires SleepsThrough(ss[i]) && ss[i].leftovers == 0
    requires forall k :: i <= k <= j ==> ss[k].queue == ss[i].queue
    ensures SleepsThrough(ss[j]) && ss[j].leftovers == 0
  {
    if i < j {
      SleepsUntilTraffic(ss, i, j - 1);
      NoWakeupIsLost(ss, j - 1);
      assert Next(ss[j - 1], ss[j]);
      SleepEndsIff(ss[j - 1], ss[j]);
      ParkedKeepsCancelled(ss[j - 1], ss[j]);
      NoNewLeftovers(ss[j - 1], ss[j]);
    }
  }

  lemma NoNewLeftovers(s: Waiting, t: Waiting)
    requires SleepsThrough(s) && Next(s, t)
    ensures t.leftovers <= s.leftovers
  {
    if m :| WriteStep(s, t, m) {
    }
  }

  /** A run in which a cancellation is slept through. */
  lemma CancellationCanBeMissed() returns (ss: seq<Waiting>)
    ensures Behaviour(ss) && SleepsThrough(ss[|ss| - 1]) && ss[|ss| - 1].leftovers == 0
  {
    var q := EMPTY_QUEUE;
    ss := [Waiting(q, Outside, false, false, 0),
           Waiting(q, Outside, true, false, 0),
           Waiting(q, Starting, true, false, 0),
           Waiting(q, Starting, true, true, 0),
           Waiting(q, Parked, true, true, 0)];
    assert CancelStep(ss[0], ss[1]) && CallStep(ss[1], ss[2]) && AnnounceStep(ss[2], ss[3]) && EnterStep(ss[3], ss[4]);
  }

  /** A run in which a watcher of the first call ends the sleep of the second. */
  lemma LeftoverCanWake(m: nat) returns (ss: seq<Waiting>)
    ensures Behaviour(ss) && |ss| == 11 && SleepsThrough(ss[9])
    ensures LateStep(ss[9], ss[10]) && ss[10].phase == Woken && ss[10].queue == ss[9].queue
  {
    var q := EMPTY_QUEUE;
    var one, none := Write(q, m), Read(Write(q, m));
    var s0 := Waiting(q, Outside, false, false, 0);
    var s1 := s0.(queue := one);
    var s2 := s1.(phase := Starting);
    var s3 := s2.(phase := Returned(true));
    var s4 := s3.(phase := Outside, leftovers := 1);
    var s5 := s4.(queue := none);
    var s6 := s5.(cancelled := true);
    var s7 := s6.(phase := Starting);
    var s8 := s7.(announced := true);
    var s9 := s8.(phase := Parked);
    var s10 := s9.(phase := Woken, leftovers := 0);
    assert WriteStep(s0, s1, m) && CallStep(s1, s2) && EnterStep(s2, s3) && LeaveStep(s3, s4) && ReadStep(s4, s5);
    assert CancelStep(s5, s6) && CallStep(s6, s7) && AnnounceStep(s7, s8) && EnterStep(s8, s9) && LateStep(s9, s10);
    ss := [s0, s1, s2, s3, s4, s5, s6, s7, s8, s9, s10];
  }
}
