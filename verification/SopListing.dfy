/**
  The SOP listing: one page of the replay buffer merged with the database, built from the newest
  rows only, against the page of the full merge.
*/
module SopListing {
  import opened Basics
  import opened Notifications

  // ---------------------------------------------------------------- the merge

  /** The replay list as a map from id to note; a later entry replaces an earlier one. */
  function ReplayMap(replay: seq<Note>, n: nat): (m: map<nat, Note>)
    requires n <= |replay|
  {
    if n == 0 then map[] else ReplayMap(replay, n - 1)[replay[n - 1].id := replay[n - 1]]
  }

  /** A row enters when its id is new or when it is strictly newer than the copy held. */
  function WithRow(m: map<nat, Note>, row: Note): map<nat, Note> {
    if row.id !in m || row.createdAt > m[row.id].createdAt then m[row.id := row] else m
  }

  function WithRows(m: map<nat, Note>, rows: seq<Note>, n: nat): map<nat, Note>
    requires n <= |rows|
  {
    if n == 0 then m else WithRow(WithRows(m, rows, n - 1), rows[n - 1])
  }

  function Merged(replay: seq<Note>, rows: seq<Note>): map<nat, Note> {
    WithRows(ReplayMap(replay, |replay|), rows, |rows|)
  }

  /** Keys are the ids of the notes they lead to. */
  ghost predicate Keyed(m: map<nat, Note>) {
    forall id :: id in m ==> m[id].id == id
  }

  lemma {:induction false} ReplayMapIs(replay: seq<Note>, n: nat)
    requires n <= |replay|
    ensures Keyed(ReplayMap(replay, n)) && ReplayMap(replay, n).Keys == Ids(replay[..n])
    ensures forall id :: id in ReplayMap(replay, n) ==> ReplayMap(replay, n)[id] in replay
  {
    if n > 0 {
      ReplayMapIs(replay, n - 1);
      assert replay[..n] == replay[..n - 1] + [replay[n - 1]];
      IdsAppend(replay[..n - 1], replay[n - 1]);
    }
  }

  ghost predicate AmongFirst(rows: seq<Note>, n: nat, id: nat)
    requires n <= |rows|
  {
    exists i :: 0 <= i < n && rows[i].id == id
  }

  /** An id no row has is left as it was. */
  lemma {:induction false} WithRowsMiss(m: map<nat, Note>, rows: seq<Note>, n: nat, id: nat)
    requires n <= |rows| && !AmongFirst(rows, n, id)
    ensures var all := WithRows(m, rows, n);
            (id in all <==> id in m) && (id in m ==> all[id] == m[id])
  {
    if n > 0 {
      WithRowsMiss(m, rows, n - 1, id);
    }
  }

  /** The only row with its id contributes as if it came alone. */
  lemma {:induction false} WithRowsHit(m: map<nat, Note>, rows: seq<Note>, n: nat, i: nat)
    requires i < n <= |rows| && DistinctIds(rows)
    ensures var id := rows[i].id;
            id in WithRows(m, rows, n) && WithRows(m, rows, n)[id] == WithRow(m, rows[i])[id]
  {
    if i < n - 1 {
      WithRowsHit(m, rows, n - 1, i);
    } else {
      WithRowsMiss(m, rows, i, rows[i].id);
    }
  }

  lemma {:induction false} WithRowsKeyed(m: map<nat, Note>, rows: seq<Note>, n: nat)
    requires n <= |rows| && Keyed(m)
    ensures Keyed(WithRows(m, rows, n))
  {
    if n > 0 {
      WithRowsKeyed(m, rows, n - 1);
    }
  }

  lemma MergedKeyed(replay: seq<Note>, rows: seq<Note>)
    ensures Keyed(Merged(replay, rows))
  {
    ReplayMapIs(replay, |replay|);
    WithRowsKeyed(ReplayMap(replay, |replay|), rows, |rows|);
  }

  lemma MergedAt(replay: seq<Note>, a: seq<Note>, b: seq<Note>, id: nat)
    requires IsPermutation(a, b) && DistinctIds(a) && DistinctIds(b)
    ensures id in Merged(replay, a) ==> id in Merged(replay, b) && Merged(replay, b)[id] == Merged(replay, a)[id]
  {
    var base := ReplayMap(replay, |replay|);
    PermutationMembers(a, b);
    if AmongFirst(a, |a|, id) {
      var i :| 0 <= i < |a| && a[i].id == id;
      assert a[i] in b;
      var j :| 0 <= j < |b| && b[j] == a[i];
      WithRowsHit(base, a, |a|, i);
      WithRowsHit(base, b, |b|, j);
    } else {
      WithRowsMiss(base, a, |a|, id);
      forall j | 0 <= j < |b|
        ensures b[j].id != id
      {
        assert b[j] in a;
      }
      WithRowsMiss(base, b, |b|, id);
    }
  }

  /** The order in which the rows come makes no difference to the merge. */
  lemma MergedIgnoresOrder(replay: seq<Note>, a: seq<Note>, b: seq<Note>)
    requires IsPermutation(a, b) && DistinctIds(a)
    ensures Merged(replay, a) == Merged(replay, b)
  {
    PermutationDistinct(a, b);
    forall id: nat
      ensures id in Merged(replay, a) <==> id in Merged(replay, b)
      ensures id in Merged(replay, a) ==> Merged(replay, b)[id] == Merged(replay, a)[id]
    {
      MergedAt(replay, a, b, id);
      MergedAt(replay, b, a, id);
    }
  }

  /**
    The merge holds, for every id of either side, the newest copy there is; of equally new copies
    the one from the replay list.
  */
  lemma MergedIsNewestCopy(replay: seq<Note>, rows: seq<Note>, id: nat)
    requires DistinctIds(replay) && DistinctIds(rows)
    ensures var m := Merged(replay, rows);
            && (id in m <==> id in Ids(replay) || id in Ids(rows))
            && (id in m ==> m[id] in replay || m[id] in rows)
            && (forall i :: 0 <= i < |replay| && replay[i].id == id ==>
                  m[id] == replay[i] || (m[id].createdAt > replay[i].createdAt && m[id] in rows))
            && (forall i :: 0 <= i < |rows| && rows[i].id == id ==> m[id].createdAt >= rows[i].createdAt)
  {
    var base := ReplayMap(replay, |replay|);
    ReplayMapIs(replay, |replay|);
    assert replay[..|replay|] == replay;
    if AmongFirst(rows, |rows|, id) {
      var i :| 0 <= i < |rows| && rows[i].id == id;
      WithRowsHit(base, rows, |rows|, i);
    } else {
      WithRowsMiss(base, rows, |rows|, id);
    }
  }

  // ---------------------------------------------------------------- pages

  /** `ordered` lists the notes of m newest first; the order of equally old ones is free. */
  ghost predicate OrderingOf(ordered: seq<Note>, m: map<nat, Note>) {
    && NewestFirst(ordered) && DistinctIds(ordered)
    && Ids(ordered) == m.Keys
    && forall i :: 0 <= i < |ordered| ==> ordered[i].id in m && m[ordered[i].id] == ordered[i]
  }

  /** The page holds the `take` notes from position `offset` on, or as many of them as there are. */
  ghost predicate IsPage(ordered: seq<Note>, offset: nat, take: nat, page: seq<Note>) {
    && |page| == Max(0, Min(take, |ordered| - offset))
    && forall k :: 0 <= k < |page| ==> page[k] == ordered[offset + k]
  }

  ghost predicate PageOf(m: map<nat, Note>, offset: nat, take: nat, page: seq<Note>) {
    exists ordered :: OrderingOf(ordered, m) && IsPage(ordered, offset, take, page)
  }

  /** Pages that follow each other join to one page: nothing is skipped or shown twice between them. */
  lemma PagesJoin(ordered: seq<Note>, offset: nat, n: nat, m: nat, first: seq<Note>, second: seq<Note>)
    requires IsPage(ordered, offset, n, first) && IsPage(ordered, offset + n, m, second)
    ensures IsPage(ordered, offset, n + m, first + second)
  {
  }

  /** A page is newest first, names no note twice, and shows notes of the merge only. */
  lemma PageShows(m: map<nat, Note>, offset: nat, take: nat, page: seq<Note>)
    requires PageOf(m, offset, take, page)
    ensures forall i, j :: 0 <= i < j < |page| ==>
              page[i].createdAt >= page[j].createdAt && page[i].id != page[j].id
    ensures forall x :: x in page ==> x.id in m && m[x.id] == x
    ensures |page| == Max(0, Min(take, |m| - offset))
  {
    var ordered :| OrderingOf(ordered, m) && IsPage(ordered, offset, take, page);
    DistinctIff(ordered);
    assert |m| == |m.Keys|;
  }

  function Newest(rows: seq<Note>, limit: nat): seq<Note> {
    rows[..Min(limit, |rows|)]
  }

  // ---------------------------------------------------------------- every map has an ordering

  /** Inserts behind everything at least as new. */
  function Insert(s: seq<Note>, x: Note): seq<Note> {
    if s == [] || s[|s| - 1].createdAt >= x.createdAt then s + [x]
    else Insert(s[..|s| - 1], x) + [s[|s| - 1]]
  }

  lemma {:induction false} InsertIs(s: seq<Note>, x: Note)
    requires NewestFirst(s)
    ensures NewestFirst(Insert(s, x)) && multiset(Insert(s, x)) == multiset(s + [x])
  {
    InsertMembers(s, x);
    if s != [] && s[|s| - 1].createdAt < x.createdAt {
      var init, last := s[..|s| - 1], s[|s| - 1];
      assert s == init + [last];
      InsertIs(init, x);
      PermutationMembers(init + [x], Insert(init, x));
      OldestLast(init, last, x, Insert(init, x));
    }
  }

  lemma {:induction false} InsertMembers(s: seq<Note>, x: Note)
    ensures multiset(Insert(s, x)) == multiset(s + [x])
  {
    if s != [] && s[|s| - 1].createdAt < x.createdAt {
      var init, last := s[..|s| - 1], s[|s| - 1];
      assert s == init + [last];
      InsertMembers(init, x);
      assert multiset(init + [x]) == multiset(init) + multiset{x};
    }
  }

  lemma OldestLast(init: seq<Note>, last: Note, x: Note, inner: seq<Note>)
    requires NewestFirst(init + [last]) && last.createdAt < x.createdAt
    requires NewestFirst(inner) && forall y :: y in inner ==> y in init + [x]
    ensures NewestFirst(inner + [last])
  {
    forall i | 0 <= i < |inner|
      ensures inner[i].createdAt >= last.createdAt
    {
      assert inner[i] in init + [x];
      if inner[i] in init {
        var j :| 0 <= j < |init| && init[j] == inner[i];
        assert (init + [last])[j] == inner[i] && (init + [last])[|init|] == last;
      }
    }
  }

  lemma InsertOrdering(tail: seq<Note>, rest: map<nat, Note>, x: Note)
    requires OrderingOf(tail, rest) && x.id !in rest
    ensures OrderingOf(Insert(tail, x), rest[x.id := x])
  {
    var ordered, m := Insert(tail, x), rest[x.id := x];
    InsertIs(tail, x);
    DistinctAppend(tail, x);
    IdsAppend(tail, x);
    PermutationDistinct(tail + [x], ordered);
    PermutationMembers(tail + [x], ordered);
    forall i | 0 <= i < |ordered|
      ensures ordered[i].id in m && m[ordered[i].id] == ordered[i]
    {
      assert ordered[i] in tail + [x];
    }
  }

  lemma {:induction false} OrderingExists(m: map<nat, Note>) returns (ordered: seq<Note>)
    requires Keyed(m)
    ensures OrderingOf(ordered, m)
    decreases |m|
  {
    if m == map[] {
      ordered := [];
    } else {
      var id :| id in m;
      var rest := m - {id};
      assert m.Keys == rest.Keys + {id};
      var tail := OrderingExists(rest);
      ordered := Insert(tail, m[id]);
      InsertOrdering(tail, rest, m[id]);
      assert rest[id := m[id]] == m;
    }
  }

  // ---------------------------------------------------------------- the truncated query

  /**
    Two merges that agree on everything at least as new as t, where the second holds beyond that
    only older or equally old notes.
  */
  ghost predicate AgreeDownTo(a: map<nat, Note>, b: map<nat, Note>, t: int) {
    && (forall id :: id in a && a[id].createdAt >= t ==> id in b && b[id] == a[id])
    && (forall id :: id in b ==> (id in a && a[id] == b[id]) || b[id].createdAt <= t)
  }

  /** What leaving out old rows does to the copy held for one id. */
  lemma TruncationAt(replay: seq<Note>, rows: seq<Note>, limit: nat, id: nat)
    requires NewestFirst(rows) && DistinctIds(rows) && 0 < limit < |rows|
    ensures var a, b, t := Merged(replay, rows[..limit]), Merged(replay, rows), rows[limit - 1].createdAt;
            && (id in a ==> id in b)
            && (id in b && !(id in a && a[id] == b[id]) ==> b[id].createdAt <= t && (id in a ==> a[id].createdAt < t))
  {
    var base, fetched := ReplayMap(replay, |replay|), rows[..limit];
    if AmongFirst(rows, |rows|, id) {
      var i :| 0 <= i < |rows| && rows[i].id == id;
      WithRowsHit(base, rows, |rows|, i);
      if i < limit {
        assert fetched[i] == rows[i];
        WithRowsHit(base, fetched, limit, i);
      } else {
        assert rows[limit - 1].createdAt >= rows[i].createdAt;
        assert forall j :: 0 <= j < limit ==> fetched[j] == rows[j];
        WithRowsMiss(base, fetched, limit, id);
      }
    } else {
      WithRowsMiss(base, rows, |rows|, id);
      assert forall j :: 0 <= j < limit ==> fetched[j] == rows[j];
      WithRowsMiss(base, fetched, limit, id);
    }
  }

  /** Leaving out rows leaves the merge as it is down to the oldest row fetched. */
  lemma TruncationAgrees(replay: seq<Note>, rows: seq<Note>, limit: nat)
    requires NewestFirst(rows) && DistinctIds(rows) && 0 < limit < |rows|
    ensures AgreeDownTo(Merged(replay, rows[..limit]), Merged(replay, rows), rows[limit - 1].createdAt)
  {
    forall id: nat
      ensures var a, b, t := Merged(replay, rows[..limit]), Merged(replay, rows), rows[limit - 1].createdAt;
              && (id in a ==> id in b)
              && (id in b && !(id in a && a[id] == b[id]) ==> b[id].createdAt <= t && (id in a ==> a[id].createdAt < t))
    {
      TruncationAt(replay, rows, limit, id);
    }
  }

  /** The fetched rows alone put `limit` notes at least as new as the oldest of them into the merge. */
  lemma FetchedAreNew(replay: seq<Note>, rows: seq<Note>, limit: nat, i: nat)
    requires NewestFirst(rows) && DistinctIds(rows) && i < limit <= |rows|
    ensures var a := Merged(replay, rows[..limit]);
            rows[i].id in a && a[rows[i].id].createdAt >= rows[limit - 1].createdAt
  {
    var fetched := rows[..limit];
    assert fetched[i] == rows[i];
    WithRowsHit(ReplayMap(replay, |replay|), fetched, limit, i);
    assert rows[i].createdAt >= rows[limit - 1].createdAt;
  }

  /** If at least `limit` ids lead to notes at least as new as t, so do the first `limit` of an ordering. */
  lemma FirstOnesAreNew(ordered: seq<Note>, m: map<nat, Note>, fetched: seq<Note>, t: int)
    requires OrderingOf(ordered, m) && DistinctIds(fetched)
    requires forall i :: 0 <= i < |fetched| ==> fetched[i].id in m && m[fetched[i].id].createdAt >= t
    ensures |ordered| >= |fetched|
    ensures forall k :: 0 <= k < |fetched| ==> ordered[k].createdAt >= t
  {
    DistinctIff(fetched);
    DistinctIff(ordered);
    assert Ids(fetched) <= Ids(ordered);
    SubsetSizes(Ids(fetched), Ids(ordered));
    forall k | 0 <= k < |fetched|
      ensures ordered[k].createdAt >= t
    {
      if ordered[k].createdAt < t {
        TooFew(ordered, m, fetched, t, k);
      }
    }
  }

  lemma TooFew(ordered: seq<Note>, m: map<nat, Note>, fetched: seq<Note>, t: int, k: nat)
    requires OrderingOf(ordered, m) && DistinctIds(fetched)
    requires forall i :: 0 <= i < |fetched| ==> fetched[i].id in m && m[fetched[i].id].createdAt >= t
    requires k < |ordered| && ordered[k].createdAt < t
    ensures |fetched| <= k
  {
    var newer := ordered[..k];
    forall id | id in Ids(fetched)
      ensures id in Ids(newer)
    {
      var i :| 0 <= i < |fetched| && fetched[i].id == id;
      assert id in Ids(ordered);
      var j :| 0 <= j < |ordered| && ordered[j].id == id;
      assert j < k;
      assert newer[j] == ordered[j];
    }
    DistinctIff(fetched);
    DistinctIff(newer);
    SubsetSizes(Ids(fetched), Ids(newer));
  }

  /** The first notes of the truncated merge, followed by all other notes of the full one. */
  lemma SameFirstNotes(shortened: seq<Note>, a: map<nat, Note>, b: map<nat, Note>, t: int, n: nat)
    returns (full: seq<Note>)
    requires OrderingOf(shortened, a) && Keyed(b) && AgreeDownTo(a, b, t)
    requires n <= |shortened| && forall k :: 0 <= k < n ==> shortened[k].createdAt >= t
    ensures OrderingOf(full, b) && n <= |full| && full[..n] == shortened[..n]
  {
    var first := shortened[..n];
    var rest := b - Ids(first);
    assert Keyed(rest);
    var tail := OrderingExists(rest);
    full := first + tail;
    assert full[..n] == first;
    JoinOrdering(shortened, a, b, t, n, tail);
  }

  lemma JoinMembers(first: seq<Note>, tail: seq<Note>, b: map<nat, Note>)
    requires forall i :: 0 <= i < |first| ==> first[i].id in b && b[first[i].id] == first[i]
    requires OrderingOf(tail, b - Ids(first))
    ensures forall i :: 0 <= i < |first + tail| ==>
              (first + tail)[i].id in b && b[(first + tail)[i].id] == (first + tail)[i]
    ensures Ids(first + tail) == b.Keys
    ensures forall i :: 0 <= i < |tail| ==> tail[i].id !in Ids(first)
  {
    var full := first + tail;
    forall i | 0 <= i < |full|
      ensures full[i].id in b && b[full[i].id] == full[i]
    {
      assert i >= |first| ==> full[i] == tail[i - |first|];
    }
    forall id | id in b
      ensures id in Ids(full)
    {
      if id in Ids(first) {
        var i :| 0 <= i < |first| && first[i].id == id;
        assert full[i].id == id;
      } else {
        assert id in Ids(tail);
        var j :| 0 <= j < |tail| && tail[j].id == id;
        assert full[|first| + j].id == id;
      }
    }
  }

  lemma JoinSorted(first: seq<Note>, tail: seq<Note>)
    requires NewestFirst(first) && DistinctIds(first) && NewestFirst(tail) && DistinctIds(tail)
    requires forall i, j :: 0 <= i < |first| && 0 <= j < |tail| ==>
               first[i].createdAt >= tail[j].createdAt && first[i].id != tail[j].id
    ensures NewestFirst(first + tail) && DistinctIds(first + tail)
  {
  }

  lemma JoinOrdering(shortened: seq<Note>, a: map<nat, Note>, b: map<nat, Note>, t: int, n: nat, tail: seq<Note>)
    requires OrderingOf(shortened, a) && Keyed(b) && AgreeDownTo(a, b, t)
    requires n <= |shortened| && forall k :: 0 <= k < n ==> shortened[k].createdAt >= t
    requires OrderingOf(tail, b - Ids(shortened[..n]))
    ensures OrderingOf(shortened[..n] + tail, b)
  {
    var first := shortened[..n];
    assert forall i :: 0 <= i < n ==> first[i] == shortened[i];
    JoinMembers(first, tail, b);
    forall i, j | 0 <= i < |first| && 0 <= j < |tail|
      ensures first[i].createdAt >= tail[j].createdAt && first[i].id != tail[j].id
    {
      assert first[i].id in Ids(first);
      NotNewerThanFirst(shortened, a, b, t, n, i, tail[j]);
    }
    JoinSorted(first, tail);
  }

  lemma NotNewerThanFirst(shortened: seq<Note>, a: map<nat, Note>, b: map<nat, Note>, t: int, n: nat, i: nat, x: Note)
    requires OrderingOf(shortened, a) && AgreeDownTo(a, b, t) && i < n <= |shortened|
    requires forall k :: 0 <= k < n ==> shortened[k].createdAt >= t
    requires x.id in b && b[x.id] == x && x.id !in Ids(shortened[..n])
    ensures shortened[i].createdAt >= x.createdAt
  {
    if x.id in a && a[x.id] == x {
      assert x.id in Ids(shortened);
      var j :| 0 <= j < |shortened| && shortened[j].id == x.id;
      assert j >= n;
    }
  }

  lemma PagesAgree(s: seq<Note>, t: seq<Note>, offset: nat, take: nat, page: seq<Note>)
    requires offset + take <= |s| && offset + take <= |t| && s[..offset + take] == t[..offset + take]
    requires IsPage(s, offset, take, page)
    ensures IsPage(t, offset, take, page)
  {
    forall k | 0 <= k < |page|
      ensures page[k] == t[offset + k]
    {
      assert s[..offset + take][offset + k] == t[..offset + take][offset + k];
    }
  }

  /** Every ordering of the truncated merge starts like some ordering of the full one. */
  lemma ShortenedExtends(replay: seq<Note>, rows: seq<Note>, limit: nat, n: nat, shortened: seq<Note>)
    returns (full: seq<Note>)
    requires NewestFirst(rows) && DistinctIds(rows) && 0 < n <= limit < |rows|
    requires OrderingOf(shortened, Merged(replay, rows[..limit]))
    ensures OrderingOf(full, Merged(replay, rows))
    ensures n <= |shortened| && n <= |full| && full[..n] == shortened[..n]
  {
    var a, b := Merged(replay, rows[..limit]), Merged(replay, rows);
    var fetched, t := rows[..limit], rows[limit - 1].createdAt;
    TruncationAgrees(replay, rows, limit);
    forall i | 0 <= i < |fetched|
      ensures fetched[i].id in a && a[fetched[i].id].createdAt >= t
    {
      FetchedAreNew(replay, rows, limit, i);
    }
    FirstOnesAreNew(shortened, a, fetched, t);
    MergedKeyed(replay, rows);
    full := SameFirstNotes(shortened, a, b, t, n);
  }

  /**
    The page built from the replay list and only the newest rows is a page of the full merge of
    the replay list and all rows, for any limit of at least offset + take rows.
  */
  lemma TruncatedPageIsFullPage(replay: seq<Note>, rows: seq<Note>, limit: nat, offset: nat, take: nat, page: seq<Note>)
    requires NewestFirst(rows) && DistinctIds(rows) && offset + take <= limit
    requires PageOf(Merged(replay, Newest(rows, limit)), offset, take, page)
    ensures PageOf(Merged(replay, rows), offset, take, page)
  {
    var shortened :|
      OrderingOf(shortened, Merged(replay, Newest(rows, limit))) && IsPage(shortened, offset, take, page);
    if limit >= |rows| {
      assert Newest(rows, limit) == rows;
    } else if offset + take == 0 {
      EmptyPage(replay, rows);
    } else {
      CutPageIsFullPage(replay, rows, limit, offset, take, shortened, page);
    }
  }

  lemma EmptyPage(replay: seq<Note>, rows: seq<Note>)
    ensures PageOf(Merged(replay, rows), 0, 0, [])
  {
    MergedKeyed(replay, rows);
    var full := OrderingExists(Merged(replay, rows));
    assert IsPage(full, 0, 0, []);
  }

  lemma CutPageIsFullPage(replay: seq<Note>, rows: seq<Note>, limit: nat, offset: nat, take: nat,
                          shortened: seq<Note>, page: seq<Note>)
    requires NewestFirst(rows) && DistinctIds(rows) && 0 < offset + take <= limit < |rows|
    requires OrderingOf(shortened, Merged(replay, Newest(rows, limit))) && IsPage(shortened, offset, take, page)
    ensures PageOf(Merged(replay, rows), offset, take, page)
  {
    var full := ShortenedExtends(replay, rows, limit, offset + take, shortened);
    PagesAgree(shortened, full, offset, take, page);
  }

  // ---------------------------------------------------------------- the total

  /** The rows whose id the replay list has as well. */
  function Duplicates(rows: seq<Note>, ids: set<nat>): nat {
    if rows == [] then 0
    else Duplicates(rows[..|rows| - 1], ids) + if rows[|rows| - 1].id in ids then 1 else 0
  }

  lemma {:induction false} DuplicatesAre(rows: seq<Note>, ids: set<nat>)
    requires DistinctIds(rows)
    ensures Duplicates(rows, ids) == |Ids(rows) * ids|
  {
    if rows == [] {
      assert Ids(rows) * ids == {};
    } else {
      var init, last := rows[..|rows| - 1], rows[|rows| - 1];
      DuplicatesAre(init, ids);
      assert rows == init + [last];
      IdsAppend(init, last);
      DistinctAppend(init, last);
      OneMoreShared(Ids(init), last.id, ids);
    }
  }

  lemma OneMoreShared(s: set<nat>, x: nat, t: set<nat>)
    requires x !in s
    ensures |(s + {x}) * t| == |s * t| + if x in t then 1 else 0
  {
    if x in t {
      assert (s + {x}) * t == s * t + {x};
    } else {
      assert (s + {x}) * t == s * t;
    }
  }

  /**
    Rows plus replay entries minus duplicates is the number of distinct ids in both together if
    and only if the replay list holds no id twice.
  */
  lemma TotalIsUnionIff(replay: seq<Note>, rows: seq<Note>)
    requires DistinctIds(rows)
    ensures |rows| + |replay| - Duplicates(rows, Ids(replay)) == |Ids(rows) + Ids(replay)| <==> DistinctIds(replay)
  {
    var a, b := Ids(rows), Ids(replay);
    DuplicatesAre(rows, b);
    DistinctIff(rows);
    DistinctIff(replay);
    UnionSize(a, b);
  }

  lemma UnionSize<T>(a: set<T>, b: set<T>)
    ensures |a + b| == |a| + |b| - |a * b|
  {
    assert a + b == a + (b - a) && b == (b - a) + (a * b);
    assert |a + b| == |a| + |b - a| && |b| == |b - a| + |a * b|;
  }
}
