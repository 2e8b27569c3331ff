/**
  Appends and listings of one account, interleaved in any order.  A listing reads the buffer, and
  removes what it returned in a second step; other appends and listings may run in between.
*/
module ReplayLoss {
  import opened Basics
  import opened Notifications
  import opened Replay
  import opened SopListing

  /** Why an id was cut: its copy's timestamp and the buffer that was kept instead. */
  datatype Cut = Cut(createdAt: int, kept: seq<Note>)

  datatype State = State(
    buffer: seq<Note>,
    appended: set<nat>,
    returned: set<nat>,
    cuts: map<nat, Cut>,
    inFlight: map<nat, seq<Note>>)

  ghost predicate Init(s: State) {
    s == State([], {}, {}, map[], map[])
  }

  function StampIn(notes: seq<Note>, id: nat): int {
    if notes == [] then 0
    else if notes[|notes| - 1].id == id then notes[|notes| - 1].createdAt
    else StampIn(notes[..|notes| - 1], id)
  }

  /** Ids that were candidates of an append and are not in the buffer it leaves. */
  function LostBy(before: seq<Note>, n: Note, after: seq<Note>): set<nat> {
    Ids(Candidates(before, n)) - Ids(after)
  }

  ghost predicate AppendStep(s: State, t: State, n: Note) {
    && Appended(s.buffer, n, t.buffer)
    && t.appended == s.appended + {n.id}
    && t.returned == s.returned && t.inFlight == s.inFlight
    && t.cuts.Keys == s.cuts.Keys + LostBy(s.buffer, n, t.buffer)
    && forall id :: id in t.cuts ==>
         t.cuts[id] == if id in LostBy(s.buffer, n, t.buffer)
                       then Cut(StampIn(Candidates(s.buffer, n), id), t.buffer) else s.cuts[id]
  }

  /** A listing computes its page from the buffer and from any rows of the database. */
  ghost predicate ListStep(s: State, t: State, listing: nat, rows: seq<Note>, offset: nat, take: nat, page: seq<Note>) {
    && listing !in s.inFlight
    && PageOf(Merged(s.buffer, rows), offset, take, page)
    && t == s.(returned := s.returned + Ids(page), inFlight := s.inFlight[listing := page])
  }

  /** Later it removes the ids of its page, or fails to, and is done. */
  ghost predicate RemoveStep(s: State, t: State, listing: nat) {
    && listing in s.inFlight
    && (t.buffer == Without(s.buffer, Ids(s.inFlight[listing])) || t.buffer == s.buffer)
    && t == s.(buffer := t.buffer, inFlight := s.inFlight - {listing})
  }

  ghost predicate Next(s: State, t: State) {
    || (exists n :: AppendStep(s, t, n))
    || (exists listing, rows, offset, take, page :: ListStep(s, t, listing, rows, offset, take, page))
    || (exists listing :: RemoveStep(s, t, listing))
  }

  ghost predicate Behaviour(ss: seq<State>) {
    ss != [] && Init(ss[0]) && forall i :: 0 <= i < |ss| - 1 ==> Next(ss[i], ss[i + 1])
  }

  // ---------------------------------------------------------------- the invariant

  /** A cut is justified by a full buffer of other notes, none of them older. */
  ghost predicate Justified(id: nat, c: Cut) {
    && |c.kept| == MAX_REPLAY && DistinctIds(c.kept) && id !in Ids(c.kept)
    && forall k :: 0 <= k < |c.kept| ==> c.kept[k].createdAt >= c.createdAt
  }

  ghost predicate Accounted(s: State) {
    && DistinctIds(s.buffer) && NewestFirst(s.buffer) && |s.buffer| <= MAX_REPLAY
    && (forall id :: id in s.appended ==> id in Ids(s.buffer) || id in s.returned || id in s.cuts)
    && (forall id :: id in s.cuts ==> Justified(id, s.cuts[id]))
    && (forall listing :: listing in s.inFlight ==> Ids(s.inFlight[listing]) <= s.returned)
  }

  lemma {:induction false} StampInIs(notes: seq<Note>, i: nat)
    requires DistinctIds(notes) && i < |notes|
    ensures StampIn(notes, notes[i].id) == notes[i].createdAt
  {
    if i < |notes| - 1 {
      StampInIs(notes[..|notes| - 1], i);
    }
  }

  lemma LostIsBehind(before: seq<Note>, n: Note, sorted: seq<Note>, after: seq<Note>, x: Note)
    requires DistinctIds(before) && AppendedVia(before, n, sorted, after)
    requires x in sorted && x.id !in Ids(after)
    ensures |after| == MAX_REPLAY && forall k :: 0 <= k < |after| ==> after[k].createdAt >= x.createdAt
  {
    AppendShape(before, n, sorted, after);
    var j :| 0 <= j < |sorted| && sorted[j] == x;
    assert j >= |after|;
  }

  lemma LostIsJustified(before: seq<Note>, n: Note, after: seq<Note>, id: nat)
    requires DistinctIds(before) && Appended(before, n, after) && id in LostBy(before, n, after)
    ensures Justified(id, Cut(StampIn(Candidates(before, n), id), after))
  {
    var sorted: seq<Note> :| AppendedVia(before, n, sorted, after);
    AppendShape(before, n, sorted, after);
    CandidatesAre(before, n);
    var i := NoteOf(Candidates(before, n), id);
    StampInIs(Candidates(before, n), i);
    PermutationMembers(Candidates(before, n), sorted);
    LostIsBehind(before, n, sorted, after, Candidates(before, n)[i]);
  }

  lemma AppendKeepsAccounted(s: State, t: State, n: Note)
    requires Accounted(s) && AppendStep(s, t, n)
    ensures Accounted(t)
  {
    var sorted: seq<Note> :| AppendedVia(s.buffer, n, sorted, t.buffer);
    AppendShape(s.buffer, n, sorted, t.buffer);
    CandidatesAre(s.buffer, n);
    forall id | id in t.cuts
      ensures Justified(id, t.cuts[id])
    {
      if id in LostBy(s.buffer, n, t.buffer) {
        LostIsJustified(s.buffer, n, t.buffer, id);
      }
    }
    forall id | id in t.appended
      ensures id in Ids(t.buffer) || id in t.returned || id in t.cuts
    {
      if id in Ids(Candidates(s.buffer, n)) && id !in Ids(t.buffer) {
        assert id in LostBy(s.buffer, n, t.buffer);
      }
    }
  }

  lemma RemoveKeepsAccounted(s: State, t: State, listing: nat)
    requires Accounted(s) && RemoveStep(s, t, listing)
    ensures Accounted(t)
  {
    WithoutIs(s.buffer, Ids(s.inFlight[listing]));
    WithoutIds(s.buffer, Ids(s.inFlight[listing]));
    WithoutAll(s.buffer, Ids(s.inFlight[listing]));
  }

  lemma NextKeepsAccounted(s: State, t: State)
    requires Accounted(s) && Next(s, t)
    ensures Accounted(t)
  {
    if n :| AppendStep(s, t, n) {
      AppendKeepsAccounted(s, t, n);
    } else if listing :| RemoveStep(s, t, listing) {
      RemoveKeepsAccounted(s, t, listing);
    }
  }

  /**
    Over any interleaving of appends and listings, every appended id is still in the buffer, or was
    in the page of a listing, or was cut when 100 notes at least as new were kept.
  */
  lemma {:induction false} NothingSilentlyLost(ss: seq<State>, i: nat)
    requires Behaviour(ss) && i < |ss|
    ensures Accounted(ss[i])
  {
    if i > 0 {
      NothingSilentlyLost(ss, i - 1);
      NextKeepsAccounted(ss[i - 1], ss[i]);
    }
  }

  /**
    Hence the total a listing reports is right at every moment: the buffer's ids stay distinct.
  */
  lemma TotalIsAlwaysRight(ss: seq<State>, i: nat, rows: seq<Note>)
    requires Behaviour(ss) && i < |ss| && DistinctIds(rows)
    ensures var buffer := ss[i].buffer;
            |rows| + |buffer| - Duplicates(rows, Ids(buffer)) == |Ids(rows) + Ids(buffer)|
  {
    NothingSilentlyLost(ss, i);
    TotalIsUnionIff(ss[i].buffer, rows);
  }

  // ---------------------------------------------------------------- copies

  /** The page has this note, or a copy of it that is strictly newer. */
  ghost predicate ReturnedCopy(page: seq<Note>, x: Note) {
    exists k :: 0 <= k < |page| && page[k].id == x.id && (page[k] == x || page[k].createdAt > x.createdAt)
  }

  /** Every copy in the buffer of an id that is being returned is returned, or was superseded. */
  ghost predicate CopiesReturned(s: State) {
    forall listing, x ::
      listing in s.inFlight && x in s.buffer && x.id in Ids(s.inFlight[listing]) ==>
        ReturnedCopy(s.inFlight[listing], x)
  }

  /** Nothing is appended that is a different copy of a note some listing is just returning. */
  ghost predicate QuietAppend(s: State, n: Note) {
    forall listing, k ::
      listing in s.inFlight && 0 <= k < |s.inFlight[listing]| && s.inFlight[listing][k].id == n.id ==>
        s.inFlight[listing][k] == n
  }

  ghost predicate QuietNext(s: State, t: State) {
    || (exists n :: AppendStep(s, t, n) && QuietAppend(s, n))
    || (exists listing, rows, offset, take, page :: ListStep(s, t, listing, rows, offset, take, page))
    || (exists listing :: RemoveStep(s, t, listing))
  }

  ghost predicate QuietBehaviour(ss: seq<State>) {
    ss != [] && Init(ss[0]) && forall i :: 0 <= i < |ss| - 1 ==> QuietNext(ss[i], ss[i + 1])
  }

  lemma AppendKeepsCopies(s: State, t: State, n: Note)
    requires DistinctIds(s.buffer) && CopiesReturned(s) && AppendStep(s, t, n) && QuietAppend(s, n)
    ensures CopiesReturned(t)
  {
    var sorted: seq<Note> :| AppendedVia(s.buffer, n, sorted, t.buffer);
    AppendShape(s.buffer, n, sorted, t.buffer);
    forall listing, x | listing in t.inFlight && x in t.buffer && x.id in Ids(t.inFlight[listing])
      ensures ReturnedCopy(t.inFlight[listing], x)
    {
      assert x in sorted;
      if x == n {
        var page := s.inFlight[listing];
        var k :| 0 <= k < |page| && page[k].id == n.id;
        assert page[k] == n;
      } else {
        assert x in s.buffer;
      }
    }
  }

  /** The page of a listing has, of every id it shares with the buffer, the buffer's copy or a newer one. */
  lemma ListKeepsCopies(s: State, t: State, listing: nat, rows: seq<Note>, offset: nat, take: nat, page: seq<Note>)
    requires DistinctIds(s.buffer) && CopiesReturned(s) && ListStep(s, t, listing, rows, offset, take, page)
    ensures CopiesReturned(t)
  {
    forall x | x in s.buffer && x.id in Ids(page)
      ensures ReturnedCopy(page, x)
    {
      var k :| 0 <= k < |page| && page[k].id == x.id;
      var ordered :| OrderingOf(ordered, Merged(s.buffer, rows)) && IsPage(ordered, offset, take, page);
      assert page[k] in ordered;
      MergedNotOlder(s.buffer, rows, x);
    }
  }

  lemma MergedNotOlder(replay: seq<Note>, rows: seq<Note>, x: Note)
    requires DistinctIds(replay) && x in replay
    ensures var m := Merged(replay, rows);
            x.id in m && (m[x.id] == x || m[x.id].createdAt > x.createdAt)
  {
    ReplayMapHolds(replay, |replay|, x);
    WithRowsNotOlder(ReplayMap(replay, |replay|), rows, |rows|, x.id);
  }

  lemma {:induction false} ReplayMapHolds(replay: seq<Note>, n: nat, x: Note)
    requires n <= |replay| && DistinctIds(replay) && x in replay[..n]
    ensures x.id in ReplayMap(replay, n) && ReplayMap(replay, n)[x.id] == x
  {
    if replay[n - 1] != x {
      assert x in replay[..n - 1];
      ReplayMapHolds(replay, n - 1, x);
    }
  }

  lemma {:induction false} WithRowsNotOlder(m: map<nat, Note>, rows: seq<Note>, n: nat, id: nat)
    requires n <= |rows| && id in m
    ensures var all := WithRows(m, rows, n);
            id in all && (all[id] == m[id] || all[id].createdAt > m[id].createdAt)
  {
    if n > 0 {
      WithRowsNotOlder(m, rows, n - 1, id);
    }
  }

  lemma RemoveKeepsCopies(s: State, t: State, listing: nat)
    requires CopiesReturned(s) && RemoveStep(s, t, listing)
    ensures CopiesReturned(t)
  {
    WithoutIs(s.buffer, Ids(s.inFlight[listing]));
  }

  lemma QuietKeeps(s: State, t: State)
    requires Accounted(s) && CopiesReturned(s) && QuietNext(s, t)
    ensures Accounted(t) && CopiesReturned(t)
  {
    if n :| AppendStep(s, t, n) && QuietAppend(s, n) {
      AppendKeepsAccounted(s, t, n);
      AppendKeepsCopies(s, t, n);
    } else if listing, rows, offset, take, page :| ListStep(s, t, listing, rows, offset, take, page) {
      NextKeepsAccounted(s, t);
      ListKeepsCopies(s, t, listing, rows, offset, take, page);
    } else {
      var listing :| RemoveStep(s, t, listing);
      RemoveKeepsAccounted(s, t, listing);
      RemoveKeepsCopies(s, t, listing);
    }
  }

  lemma {:induction false} QuietCopiesReturned(ss: seq<State>, i: nat)
    requires QuietBehaviour(ss) && i < |ss|
    ensures Accounted(ss[i]) && CopiesReturned(ss[i])
  {
    if i > 0 {
      QuietCopiesReturned(ss, i - 1);
      QuietKeeps(ss[i - 1], ss[i]);
    }
  }

  /**
    As long as nothing but equal copies of a note is appended while a listing is returning it, a
    removal takes only copies that were returned or that were superseded by the one returned.
  */
  lemma RemovalTakesOnlyReturnedCopies(ss: seq<State>, i: nat, listing: nat, x: Note)
    requires QuietBehaviour(ss) && i + 1 < |ss| && RemoveStep(ss[i], ss[i + 1], listing)
    requires x in ss[i].buffer && x !in ss[i + 1].buffer
    ensures ReturnedCopy(ss[i].inFlight[listing], x)
  {
    QuietCopiesReturned(ss, i);
    WithoutIs(ss[i].buffer, Ids(ss[i].inFlight[listing]));
  }

  /**
    Otherwise it can take more.  A second, different copy of an id that arrives between the two
    steps of a listing is removed with the page, although only the first copy was returned.
  */
  lemma SecondCopyCanVanish(first: Note, second: Note) returns (ss: seq<State>)
    requires first.id == second.id && first != second
    ensures |ss| == 5 && Init(ss[0])
    ensures AppendStep(ss[0], ss[1], first) && ListStep(ss[1], ss[2], 0, [], 0, 1, [first])
    ensures AppendStep(ss[2], ss[3], second) && RemoveStep(ss[3], ss[4], 0)
    ensures ss[3].buffer == [second] && ss[4].buffer == []
  {
    var id := first.id;
    var s0 := State([], {}, {}, map[], map[]);
    var s1 := State([first], {id}, {}, map[], map[]);
    var s2 := State([first], {id}, {id}, map[], map[0 := [first]]);
    var s3 := State([second], {id}, {id}, map[], map[0 := [first]]);
    var s4 := State([], {id}, {id}, map[], map[]);
    AloneAppends(s0, s1, first);
    AloneIsListed(s1, s2, first);
    AloneAppends(s2, s3, second);
    AloneIsRemoved(s3, s4, second, first);
    ss := [s0, s1, s2, s3, s4];
  }

  /** Appending to a buffer without other ids leaves the new note alone. */
  lemma AloneAppends(s: State, t: State, n: Note)
    requires s.buffer == [] || (|s.buffer| == 1 && s.buffer[0].id == n.id)
    requires s.cuts == map[] && t == s.(buffer := [n], appended := s.appended + {n.id})
    ensures AppendStep(s, t, n)
  {
    assert s.buffer[..0] == [];
    assert Without(s.buffer, {n.id}) == [];
    assert Candidates(s.buffer, n) == [n];
    assert AppendedVia(s.buffer, n, [n], [n]);
    assert LostBy(s.buffer, n, [n]) == {};
  }

  lemma AloneIsListed(s: State, t: State, n: Note)
    requires s.buffer == [n] && s.inFlight == map[]
    requires t == s.(returned := s.returned + {n.id}, inFlight := map[0 := [n]])
    ensures ListStep(s, t, 0, [], 0, 1, [n])
  {
    SingletonPage(n);
  }

  lemma AloneIsRemoved(s: State, t: State, n: Note, listed: Note)
    requires s.buffer == [n] && s.inFlight == map[0 := [listed]] && listed.id == n.id
    requires t == s.(buffer := [], inFlight := map[])
    ensures RemoveStep(s, t, 0)
  {
    assert [n][..0] == [];
    assert [listed][0].id in Ids([listed]);
    assert Without([n], Ids([listed])) == [];
    assert s.inFlight - {0} == map[];
  }

  lemma SingletonPage(n: Note)
    ensures Ids([n]) == {n.id} && PageOf(Merged([n], []), 0, 1, [n])
  {
    assert [n][0] == n;
    assert ReplayMap([n], 1) == map[n.id := n];
    assert WithRows(ReplayMap([n], 1), [], 0) == map[n.id := n];
    assert OrderingOf([n], map[n.id := n]);
    assert IsPage([n], 0, 1, [n]);
  }
}
