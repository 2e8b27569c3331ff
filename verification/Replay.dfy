/**
  The SOP replay buffer: at most 100 notifications per account, newest first.  The buffer is the
  list under the account's cache key; the cache lock makes append and remove atomic.
*/
module Replay {
  import opened Basics
  import opened Notifications

  const MAX_REPLAY: nat := 100

  function ListOf(cache: map<nat, seq<Note>>, account: nat): seq<Note> {
    if account in cache then cache[account] else []
  }

  function IdSet(ids: seq<nat>): set<nat> {
    set id | id in ids
  }

  /** The list an append sorts: the new note and everything with another id. */
  function Candidates(before: seq<Note>, n: Note): seq<Note> {
    Without(before, {n.id}) + [n]
  }

  /** `after` holds the newest 100 candidates; which of equally old ones is cut is not determined. */
  ghost predicate AppendedVia(before: seq<Note>, n: Note, sorted: seq<Note>, after: seq<Note>) {
    && NewestFirst(sorted)
    && IsPermutation(Candidates(before, n), sorted)
    && after == if |sorted| > MAX_REPLAY then sorted[..MAX_REPLAY] else sorted
  }

  ghost predicate Appended(before: seq<Note>, n: Note, after: seq<Note>) {
    exists sorted :: AppendedVia(before, n, sorted, after)
  }

  class ReplayBuffer {
    var cache: map<nat, seq<Note>>

    constructor ()
      ensures cache == map[]
    {
      cache := map[];
    }

    method GetNotifications(account: nat) returns (notes: seq<Note>)
      ensures notes == ListOf(cache, account)
    {
      notes := if account in cache then cache[account] else [];
    }

    method AppendNotification(n: Note)
      modifies this
      ensures cache.Keys == old(cache).Keys + {n.accountId}
      ensures Appended(ListOf(old(cache), n.accountId), n, cache[n.accountId])
      ensures |cache[n.accountId]| <= 100
      ensures forall account :: account in old(cache) && account != n.accountId ==>
                cache[account] == old(cache)[account]
    {
      var notes := GetNotifications(n.accountId);
      var list := AppendToList(notes, n);
      cache := cache[n.accountId := list];
    }

    /** Filters the decoded list in its own storage and adds the new note behind what is kept. */
    method FilterAndAdd(notes: seq<Note>, n: Note) returns (buffer: array<Note>, m: nat)
      ensures fresh(buffer) && m <= buffer.Length && buffer[..m] == Candidates(notes, n)
    {
      buffer := new Note[|notes| + 1](i requires 0 <= i <= |notes| => if i < |notes| then notes[i] else n);
      assert buffer[..|notes|] == notes;
      m := CompactInPlace(buffer, |notes|, {n.id});
      ghost var kept := buffer[..m];
      buffer[m] := n;
      m := m + 1;
      assert buffer[..m] == kept + [n];
    }

    method AppendToList(notes: seq<Note>, n: Note) returns (list: seq<Note>)
      ensures Appended(notes, n, list)
    {
      var buffer, m := FilterAndAdd(notes, n);
      ghost var sorted;
      list, sorted := SortAndCut(buffer, m);
      assert AppendedVia(notes, n, sorted, list);
    }

    method SortAndCut(buffer: array<Note>, m: nat) returns (list: seq<Note>, ghost sorted: seq<Note>)
      requires m <= buffer.Length
      modifies buffer
      ensures NewestFirst(sorted) && IsPermutation(old(buffer[..m]), sorted)
      ensures list == if |sorted| > MAX_REPLAY then sorted[..MAX_REPLAY] else sorted
    {
      SortNewestFirst(buffer, m);
      sorted := buffer[..m];
      var end := m;
      if end > MAX_REPLAY {
        end := MAX_REPLAY;
      }
      list := buffer[..end];
    }

    method Collect(ids: seq<nat>) returns (removeSet: set<nat>)
      ensures removeSet == IdSet(ids)
    {
      removeSet := {};
      var i := 0;
      while i < |ids|
        invariant 0 <= i <= |ids| && removeSet == IdSet(ids[..i])
      {
        assert ids[..i + 1] == ids[..i] + [ids[i]];
        removeSet := removeSet + {ids[i]};
        i := i + 1;
      }
      assert ids[..|ids|] == ids;
    }

    /** Removes the given ids; writes nothing when there is nothing to remove. */
    method RemoveNotifications(account: nat, ids: seq<nat>)
      modifies this
      ensures ListOf(cache, account) == Without(ListOf(old(cache), account), IdSet(ids))
      ensures forall other :: other != account ==>
                (other in cache <==> other in old(cache)) && ListOf(cache, other) == ListOf(old(cache), other)
    {
      var removeSet := Collect(ids);
      var notes := GetNotifications(account);
      WithoutAll(notes, removeSet);
      if |removeSet| == 0 {
        return;
      }
      var buffer := new Note[|notes|](i requires 0 <= i < |notes| => notes[i]);
      assert buffer[..|notes|] == notes;
      var m := CompactInPlace(buffer, |notes|, removeSet);
      if m != |notes| {
        cache := cache[account := buffer[..m]];
      }
    }
  }

  /** Filtering that keeps the length keeps the list, so the skipped write changes nothing. */
  lemma {:induction false} WithoutAll(s: seq<Note>, drop: set<nat>)
    ensures |Without(s, drop)| <= |s|
    ensures |Without(s, drop)| == |s| ==> Without(s, drop) == s
    ensures drop == {} ==> Without(s, drop) == s
  {
    if s != [] {
      WithoutAll(s[..|s| - 1], drop);
      assert s == s[..|s| - 1] + [s[|s| - 1]];
    }
  }

  /** A removal takes every copy of the given ids and no other note, and leaves the order as it is. */
  lemma RemovalTakesTheIds(s: seq<Note>, ids: seq<nat>)
    ensures forall x :: multiset(Without(s, IdSet(ids)))[x] == if x.id in ids then 0 else multiset(s)[x]
    ensures NewestFirst(s) ==> NewestFirst(Without(s, IdSet(ids)))
  {
    WithoutKeeps(s, IdSet(ids));
    WithoutIs(s, IdSet(ids));
  }

  lemma {:induction false} WithoutKeeps(s: seq<Note>, drop: set<nat>)
    ensures forall x :: multiset(Without(s, drop))[x] == if x.id in drop then 0 else multiset(s)[x]
  {
    if s != [] {
      WithoutKeeps(s[..|s| - 1], drop);
      assert s == s[..|s| - 1] + [s[|s| - 1]];
    }
  }

  // ---------------------------------------------------------------- streaming top 100

  /** buffers[i] is what the buffer may hold after the first i appends. */
  ghost predicate AppendRun(notes: seq<Note>, buffers: seq<seq<Note>>) {
    && |buffers| == |notes| + 1
    && buffers[0] == []
    && forall i :: 0 <= i < |notes| ==> Appended(buffers[i], notes[i], buffers[i + 1])
  }

  /** An id always carries the same timestamp. */
  ghost predicate SameStamps(notes: seq<Note>) {
    forall i, j :: 0 <= i < |notes| && 0 <= j < |notes| && notes[i].id == notes[j].id ==>
      notes[i].createdAt == notes[j].createdAt
  }

  /** Position i holds x, and no later note has its id. */
  ghost predicate LatestAt(notes: seq<Note>, i: nat, x: Note)
    requires i < |notes|
  {
    notes[i] == x && forall j :: i < j < |notes| ==> notes[j].id != x.id
  }

  ghost predicate HasLatest(notes: seq<Note>, x: Note) {
    exists i :: 0 <= i < |notes| && LatestAt(notes, i, x)
  }

  /** Every buffered note is the latest copy appended for its id. */
  ghost predicate LatestCopies(notes: seq<Note>, buffer: seq<Note>) {
    forall k :: 0 <= k < |buffer| ==> HasLatest(notes, buffer[k])
  }

  /** Nothing that is missing is strictly newer than anything that is kept. */
  ghost predicate CutsOldest(notes: seq<Note>, buffer: seq<Note>) {
    forall i, k :: 0 <= i < |notes| && 0 <= k < |buffer| && notes[i].id !in Ids(buffer) ==>
      notes[i].createdAt <= buffer[k].createdAt
  }

  ghost predicate TopHundred(notes: seq<Note>, buffer: seq<Note>) {
    && DistinctIds(buffer) && NewestFirst(buffer)
    && Ids(buffer) <= Ids(notes)
    && |buffer| == Min(100, |Ids(notes)|)
    && CutsOldest(notes, buffer)
    && LatestCopies(notes, buffer)
  }

  lemma PrefixMembers(s: seq<Note>, n: nat)
    requires n <= |s|
    ensures Ids(s[..n]) <= Ids(s)
    ensures DistinctIds(s) ==> DistinctIds(s[..n])
    ensures NewestFirst(s) ==> NewestFirst(s[..n])
  {
  }

  lemma CandidatesAre(before: seq<Note>, n: Note)
    requires DistinctIds(before)
    ensures DistinctIds(Candidates(before, n)) && Ids(Candidates(before, n)) == Ids(before) + {n.id}
    ensures forall x :: x in Candidates(before, n) <==> x == n || (x in before && x.id != n.id)
  {
    var kept := Without(before, {n.id});
    WithoutIs(before, {n.id});
    WithoutIds(before, {n.id});
    DistinctAppend(kept, n);
    IdsAppend(kept, n);
  }

  /** Shape of one append, whatever the timestamps are. */
  lemma AppendShape(before: seq<Note>, n: Note, sorted: seq<Note>, after: seq<Note>)
    requires AppendedVia(before, n, sorted, after) && DistinctIds(before)
    ensures DistinctIds(sorted) && DistinctIds(after) && NewestFirst(after)
    ensures Ids(sorted) == Ids(before) + {n.id} && |sorted| == |Ids(sorted)|
    ensures |after| == Min(MAX_REPLAY, |sorted|) && after == sorted[..|after|]
    ensures forall x :: x in sorted <==> x == n || (x in before && x.id != n.id)
  {
    CandidatesAre(before, n);
    PermutationDistinct(Candidates(before, n), sorted);
    PermutationMembers(Candidates(before, n), sorted);
    DistinctIff(sorted);
    PrefixMembers(sorted, |after|);
  }

  /** A note that was appended but is missing proves the buffer full. */
  lemma MissingMeansFull(notes: seq<Note>, buffer: seq<Note>, id: nat)
    requires TopHundred(notes, buffer) && id in Ids(notes) && id !in Ids(buffer)
    ensures |buffer| == MAX_REPLAY < |Ids(notes)|
  {
    DistinctIff(buffer);
    SubsetSizes(Ids(buffer), Ids(notes));
  }

  lemma SizeAfter(known: set<nat>, held: set<nat>, id: nat)
    requires held <= known && |held| == Min(MAX_REPLAY, |known|)
    ensures Min(MAX_REPLAY, |held + {id}|) == Min(MAX_REPLAY, |known + {id}|)
  {
    SubsetSizes(held, known);
    if id in held {
      assert held + {id} == held && known + {id} == known;
    } else if id in known {
      assert known + {id} == known;
    }
  }

  lemma AppendSize(notes: seq<Note>, before: seq<Note>, n: Note, sorted: seq<Note>, after: seq<Note>)
    requires TopHundred(notes, before) && AppendedVia(before, n, sorted, after)
    ensures |after| == Min(MAX_REPLAY, |Ids(notes + [n])|)
  {
    AppendShape(before, n, sorted, after);
    IdsAppend(notes, n);
    DistinctIff(before);
    SizeAfter(Ids(notes), Ids(before), n.id);
  }

  lemma IdOf(s: seq<Note>, x: Note)
    requires x in s
    ensures x.id in Ids(s)
  {
    var i :| 0 <= i < |s| && s[i] == x;
    assert s[i].id in Ids(s);
  }

  lemma NoteOf(s: seq<Note>, id: nat) returns (i: nat)
    requires id in Ids(s)
    ensures i < |s| && s[i].id == id
  {
    i :| 0 <= i < |s| && s[i].id == id;
  }

  /** The new note itself is not older than anything an earlier append had dropped. */
  lemma NewcomerNotOlder(notes: seq<Note>, before: seq<Note>, n: Note, sorted: seq<Note>, after: seq<Note>, x: Note)
    requires TopHundred(notes, before) && AppendedVia(before, n, sorted, after) && SameStamps(notes + [n])
    requires x in notes && x.id !in Ids(before) && x.id != n.id && n in after
    ensures x.createdAt <= n.createdAt
  {
    AppendShape(before, n, sorted, after);
    IdOf(notes, x);
    MissingMeansFull(notes, before, x.id);
    var i :| 0 <= i < |notes| && notes[i] == x;
    if n.id in Ids(before) {
      var k := NoteOf(before, n.id);
      LatestStamp(notes, before, k);
      assert (notes + [n])[|notes|] == n;
      var l :| 0 <= l < |notes| && notes[l] == before[k];
      assert (notes + [n])[l].id == (notes + [n])[|notes|].id;
    } else {
      DistinctIff(before);
      var k :| 0 <= k < |after| && after[k] == n;
      var l := FirstCut(before, n, sorted, after, k);
    }
  }

  /** An append to a full buffer cuts an old note that is not newer than what stays. */
  lemma FirstCut(before: seq<Note>, n: Note, sorted: seq<Note>, after: seq<Note>, k: nat) returns (l: nat)
    requires DistinctIds(before) && AppendedVia(before, n, sorted, after)
    requires n.id !in Ids(before) && |before| == MAX_REPLAY && k < |after| && after[k] == n
    ensures l < |before| && before[l].createdAt <= n.createdAt
  {
    AppendShape(before, n, sorted, after);
    DistinctIff(before);
    var cut := sorted[MAX_REPLAY];
    assert cut in sorted && sorted[k] == n;
    assert cut.id != n.id;
    l :| 0 <= l < |before| && before[l] == cut;
    assert sorted[k].createdAt >= sorted[MAX_REPLAY].createdAt;
  }

  lemma LatestStamp(notes: seq<Note>, buffer: seq<Note>, k: nat)
    requires LatestCopies(notes, buffer) && k < |buffer|
    ensures buffer[k] in notes
  {
  }

  /** A note cut by this append is not newer than what stays. */
  lemma CutNowNotNewer(notes: seq<Note>, before: seq<Note>, n: Note, sorted: seq<Note>, after: seq<Note>, x: Note,
                       k: nat)
    requires DistinctIds(before) && LatestCopies(notes, before)
    requires AppendedVia(before, n, sorted, after) && SameStamps(notes + [n])
    requires x in notes + [n] && k < |after| && x.id !in Ids(after) && x.id in Ids(sorted)
    ensures x.createdAt <= after[k].createdAt
  {
    AppendShape(before, n, sorted, after);
    var j := NoteOf(sorted, x.id);
    assert j >= |after|;
    assert sorted[j] in sorted;
    SameStampAs(notes, before, n, x, sorted[j]);
  }

  /** A note cut by an earlier append is not newer than what stays. */
  lemma CutBeforeNotNewer(notes: seq<Note>, before: seq<Note>, n: Note, sorted: seq<Note>, after: seq<Note>, x: Note,
                          k: nat)
    requires TopHundred(notes, before) && AppendedVia(before, n, sorted, after) && SameStamps(notes + [n])
    requires x in notes && k < |after| && x.id !in Ids(before) && x.id != n.id
    ensures x.createdAt <= after[k].createdAt
  {
    AppendShape(before, n, sorted, after);
    assert after[k] in sorted;
    if after[k] == n {
      NewcomerNotOlder(notes, before, n, sorted, after, x);
    } else {
      var l :| 0 <= l < |before| && before[l] == after[k];
      var i :| 0 <= i < |notes| && notes[i] == x;
    }
  }

  lemma AppendCutsOldest(notes: seq<Note>, before: seq<Note>, n: Note, sorted: seq<Note>, after: seq<Note>, x: Note,
                         k: nat)
    requires TopHundred(notes, before) && AppendedVia(before, n, sorted, after) && SameStamps(notes + [n])
    requires x in notes + [n] && k < |after| && x.id !in Ids(after)
    ensures x.createdAt <= after[k].createdAt
  {
    if x.id in Ids(sorted) {
      CutNowNotNewer(notes, before, n, sorted, after, x, k);
    } else {
      AppendShape(before, n, sorted, after);
      CutBeforeNotNewer(notes, before, n, sorted, after, x, k);
    }
  }

  /** Two copies of one id have one timestamp, wherever they are. */
  lemma SameStampAs(notes: seq<Note>, before: seq<Note>, n: Note, x: Note, y: Note)
    requires SameStamps(notes + [n]) && LatestCopies(notes, before)
    requires x in notes + [n] && (y == n || y in before) && x.id == y.id
    ensures x.createdAt == y.createdAt
  {
    var all := notes + [n];
    var i :| 0 <= i < |all| && all[i] == x;
    if y == n {
      assert all[|notes|] == n;
    } else {
      var k :| 0 <= k < |before| && before[k] == y;
      LatestStamp(notes, before, k);
      var j :| 0 <= j < |notes| && notes[j] == y;
      assert all[j] == y;
    }
  }

  lemma LatestGrows(notes: seq<Note>, n: Note, i: nat, x: Note)
    requires i < |notes| && LatestAt(notes, i, x) && n.id != x.id
    ensures LatestAt(notes + [n], i, x)
  {
  }

  lemma AppendKeepsLatest(notes: seq<Note>, before: seq<Note>, n: Note, sorted: seq<Note>, after: seq<Note>)
    requires DistinctIds(before) && LatestCopies(notes, before) && AppendedVia(before, n, sorted, after)
    ensures LatestCopies(notes + [n], after)
  {
    AppendShape(before, n, sorted, after);
    var all := notes + [n];
    assert all[|notes|] == n && LatestAt(all, |notes|, n);
    forall k | 0 <= k < |after|
      ensures HasLatest(all, after[k])
    {
      assert after[k] in sorted;
      if after[k] != n {
        OlderKeepsLatest(notes, before, n, after[k]);
      }
    }
  }

  lemma OlderKeepsLatest(notes: seq<Note>, before: seq<Note>, n: Note, x: Note)
    requires LatestCopies(notes, before) && x in before && x.id != n.id
    ensures HasLatest(notes + [n], x)
  {
    var l :| 0 <= l < |before| && before[l] == x;
    assert HasLatest(notes, before[l]);
    var i :| 0 <= i < |notes| && LatestAt(notes, i, x);
    LatestGrows(notes, n, i, x);
  }

  lemma AppendKeepsTopHundred(notes: seq<Note>, before: seq<Note>, n: Note, after: seq<Note>)
    requires TopHundred(notes, before) && Appended(before, n, after) && SameStamps(notes + [n])
    ensures TopHundred(notes + [n], after)
  {
    var sorted: seq<Note> :| AppendedVia(before, n, sorted, after);
    AppendShape(before, n, sorted, after);
    AppendSize(notes, before, n, sorted, after);
    AppendKeepsLatest(notes, before, n, sorted, after);
    AppendKeepsCutting(notes, before, n, sorted, after);
    assert Ids(after) <= Ids(notes + [n]) by {
      PrefixMembers(sorted, |after|);
      IdsAppend(notes, n);
    }
  }

  lemma AppendKeepsCutting(notes: seq<Note>, before: seq<Note>, n: Note, sorted: seq<Note>, after: seq<Note>)
    requires TopHundred(notes, before) && AppendedVia(before, n, sorted, after) && SameStamps(notes + [n])
    ensures CutsOldest(notes + [n], after)
  {
    var all := notes + [n];
    forall i, k | 0 <= i < |all| && 0 <= k < |after| && all[i].id !in Ids(after)
      ensures all[i].createdAt <= after[k].createdAt
    {
      AppendCutsOldest(notes, before, n, sorted, after, all[i], k);
    }
  }

  /**
    After any run of appends in which an id always carries the same timestamp, the buffer is the
    newest-first list of the latest copies of min(100, distinct ids) notes, and nothing it lacks is
    strictly newer than anything it has.
  */
  lemma {:induction false} BufferIsTopHundred(notes: seq<Note>, buffers: seq<seq<Note>>, i: nat)
    requires AppendRun(notes, buffers) && SameStamps(notes) && i <= |notes|
    ensures TopHundred(notes[..i], buffers[i])
  {
    if i > 0 {
      BufferIsTopHundred(notes, buffers, i - 1);
      assert notes[..i] == notes[..i - 1] + [notes[i - 1]];
      AppendKeepsTopHundred(notes[..i - 1], buffers[i - 1], notes[i - 1], buffers[i]);
    }
  }
}
