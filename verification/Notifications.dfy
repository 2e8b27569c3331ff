/** Notifications and the orders, filters and in-place list operations the SOP code is built from. */
module Notifications {
  import opened Basics

  datatype Note = Note(id: nat, createdAt: int, accountId: nat, appId: Option<string>, body: string)

  ghost predicate NewestFirst(s: seq<Note>) {
    forall i, j :: 0 <= i < j < |s| ==> s[i].createdAt >= s[j].createdAt
  }

  ghost predicate DistinctIds(s: seq<Note>) {
    forall i, j :: 0 <= i < j < |s| ==> s[i].id != s[j].id
  }

  function Ids(s: seq<Note>): set<nat> {
    set i | 0 <= i < |s| :: s[i].id
  }

  /** The notes whose id is not in `drop`, in order. */
  function Without(s: seq<Note>, drop: set<nat>): seq<Note> {
    if s == [] then []
    else
      var last := s[|s| - 1];
      Without(s[..|s| - 1], drop) + if last.id in drop then [] else [last]
  }

  ghost predicate IsPermutation(a: seq<Note>, b: seq<Note>) {
    multiset(a) == multiset(b)
  }

  lemma PermutationMembers(a: seq<Note>, b: seq<Note>)
    requires IsPermutation(a, b)
    ensures |a| == |b|
    ensures forall x :: x in a <==> x in b
    ensures Ids(a) == Ids(b)
  {
    assert |multiset(a)| == |a| && |multiset(b)| == |b|;
    forall x
      ensures x in a <==> x in b
    {
      assert x in a <==> x in multiset(a);
      assert x in b <==> x in multiset(b);
    }
    forall id
      ensures id in Ids(a) <==> id in Ids(b)
    {
      if id in Ids(a) {
        var i :| 0 <= i < |a| && a[i].id == id;
        assert a[i] in b;
      }
      if id in Ids(b) {
        var i :| 0 <= i < |b| && b[i].id == id;
        assert b[i] in a;
      }
    }
  }

  lemma IdsAppend(init: seq<Note>, last: Note)
    ensures Ids(init + [last]) == Ids(init) + {last.id}
  {
    var s := init + [last];
    forall id
      ensures id in Ids(s) <==> id in Ids(init) + {last.id}
    {
      if id in Ids(init) {
        var i :| 0 <= i < |init| && init[i].id == id;
        assert s[i].id == id;
      }
      assert s[|init|] == last;
    }
  }

  lemma DistinctAppend(init: seq<Note>, last: Note)
    ensures DistinctIds(init + [last]) <==> DistinctIds(init) && last.id !in Ids(init)
  {
    var s := init + [last];
    assert forall i :: 0 <= i < |init| ==> s[i] == init[i] && init[i].id in Ids(init);
    assert s[|init|] == last;
    if last.id in Ids(init) {
      var i :| 0 <= i < |init| && init[i].id == last.id;
      assert s[i].id == s[|init|].id;
    }
    if DistinctIds(s) {
      assert forall i, j :: 0 <= i < j < |init| ==> s[i].id != s[j].id;
    }
  }

  /** Ids are distinct exactly when there are as many of them as notes. */
  lemma {:induction false} DistinctIff(s: seq<Note>)
    ensures |Ids(s)| <= |s|
    ensures DistinctIds(s) <==> |Ids(s)| == |s|
  {
    if s != [] {
      var init, last := s[..|s| - 1], s[|s| - 1];
      assert s == init + [last];
      DistinctIff(init);
      IdsAppend(init, last);
      DistinctAppend(init, last);
    }
  }

  lemma PermutationDistinct(a: seq<Note>, b: seq<Note>)
    requires IsPermutation(a, b) && DistinctIds(a)
    ensures DistinctIds(b)
  {
    PermutationMembers(a, b);
    DistinctIff(a);
    DistinctIff(b);
  }

  /** What filtering keeps: members, order of creation, distinct ids. */
  lemma {:induction false} WithoutIs(s: seq<Note>, drop: set<nat>)
    ensures forall x :: x in Without(s, drop) <==> x in s && x.id !in drop
    ensures NewestFirst(s) ==> NewestFirst(Without(s, drop))
    ensures DistinctIds(s) ==> DistinctIds(Without(s, drop))
  {
    if s != [] {
      var init, last := s[..|s| - 1], s[|s| - 1];
      WithoutIs(init, drop);
      assert s == init + [last];
      if last.id !in drop {
        WithoutLast(init, last, Without(init, drop));
      }
    }
  }

  lemma WithoutLast(init: seq<Note>, last: Note, kept: seq<Note>)
    requires forall x :: x in kept ==> x in init
    ensures NewestFirst(init + [last]) && NewestFirst(kept) ==> NewestFirst(kept + [last])
    ensures DistinctIds(init + [last]) && DistinctIds(kept) ==> DistinctIds(kept + [last])
  {
    var s := init + [last];
    forall i | 0 <= i < |kept|
      ensures NewestFirst(s) ==> kept[i].createdAt >= last.createdAt
      ensures DistinctIds(s) ==> kept[i].id != last.id
    {
      assert kept[i] in init;
      var j :| 0 <= j < |init| && init[j] == kept[i];
      assert s[j] == kept[i] && s[|init|] == last;
    }
  }

  lemma WithoutIds(s: seq<Note>, drop: set<nat>)
    ensures Ids(Without(s, drop)) == Ids(s) - drop
  {
    WithoutIs(s, drop);
    var kept := Without(s, drop);
    forall id
      ensures id in Ids(kept) <==> id in Ids(s) - drop
    {
      if id in Ids(kept) {
        var i :| 0 <= i < |kept| && kept[i].id == id;
        assert kept[i] in kept;
      }
      if id in Ids(s) - drop {
        var i :| 0 <= i < |s| && s[i].id == id;
        assert s[i] in kept;
      }
    }
  }

  // ---------------------------------------------------------------- in place

  /**
    Filters the first n cells into the front of the same array, reading each cell before anything
    is written over it; returns how many were kept.
  */
  method CompactInPlace(a: array<Note>, n: nat, drop: set<nat>) returns (m: nat)
    requires n <= a.Length
    modifies a
    ensures m <= n && a[..m] == Without(old(a[..n]), drop)
    ensures a[n..] == old(a[n..])
  {
    ghost var was := a[..n];
    m := 0;
    var i := 0;
    while i < n
      invariant 0 <= m <= i <= n
      invariant a[..m] == Without(was[..i], drop)
      invariant forall j :: i <= j < a.Length ==> a[j] == old(a[j])
    {
      var item := a[i];
      assert item == was[i] == was[..i + 1][i];
      assert was[..i + 1][..i] == was[..i];
      if item.id !in drop {
        a[m] := item;
        m := m + 1;
      }
      i := i + 1;
    }
    assert was[..n] == was;
  }

  /**
    Sorts the first n cells newest first.  Callers may rely on the order by creation and on the
    cells being the same ones, not on the order of notes created at the same instant.
  */
  method SortNewestFirst(a: array<Note>, n: nat)
    requires n <= a.Length
    modifies a
    ensures NewestFirst(a[..n]) && IsPermutation(old(a[..n]), a[..n])
    ensures a[n..] == old(a[n..])
  {
    var i := 0;
    while i < n
      invariant 0 <= i <= n
      invariant NewestFirst(a[..i]) && IsPermutation(old(a[..n]), a[..n])
      invariant a[n..] == old(a[n..])
    {
      SinkNewest(a, n, i);
      i := i + 1;
    }
  }

  /** Newest first, except that position j may be too new for its place. */
  ghost predicate NewestFirstBut(s: seq<Note>, j: nat) {
    forall x, y :: 0 <= x < y < |s| && y != j ==> s[x].createdAt >= s[y].createdAt
  }

  lemma SwapSinks(before: seq<Note>, after: seq<Note>, j: nat)
    requires 0 < j < |before| && NewestFirstBut(before, j) && before[j - 1].createdAt < before[j].createdAt
    requires |after| == |before| && after[j - 1] == before[j] && after[j] == before[j - 1]
    requires forall i :: 0 <= i < |before| && i != j && i != j - 1 ==> after[i] == before[i]
    ensures NewestFirstBut(after, j - 1)
  {
  }

  lemma LastUnplaced(s: seq<Note>)
    requires s != [] && NewestFirst(s[..|s| - 1])
    ensures NewestFirstBut(s, |s| - 1)
  {
    forall x, y | 0 <= x < y < |s| - 1
      ensures s[x].createdAt >= s[y].createdAt
    {
      assert s[..|s| - 1][x] == s[x] && s[..|s| - 1][y] == s[y];
    }
  }

  lemma PlaceFound(s: seq<Note>, j: nat)
    requires j < |s| && NewestFirstBut(s, j) && (j > 0 ==> s[j - 1].createdAt >= s[j].createdAt)
    ensures NewestFirst(s)
  {
    forall x | 0 <= x < j
      ensures s[x].createdAt >= s[j].createdAt
    {
      assert x < j - 1 ==> s[x].createdAt >= s[j - 1].createdAt;
    }
  }

  /** Moves cell k up to its place among the sorted cells before it. */
  method SinkNewest(a: array<Note>, n: nat, k: nat)
    requires k < n <= a.Length && NewestFirst(a[..k])
    modifies a
    ensures NewestFirst(a[..k + 1]) && IsPermutation(old(a[..n]), a[..n])
    ensures a[n..] == old(a[n..])
  {
    var j := k;
    assert a[..k + 1][..k] == a[..k];
    LastUnplaced(a[..k + 1]);
    while j > 0 && a[j - 1].createdAt < a[j].createdAt
      invariant 0 <= j <= k
      invariant NewestFirstBut(a[..k + 1], j)
      invariant IsPermutation(old(a[..n]), a[..n])
      invariant a[n..] == old(a[n..])
    {
      SinkOnce(a, n, k, j);
      j := j - 1;
    }
    PlaceFound(a[..k + 1], j);
  }

  method SinkOnce(a: array<Note>, n: nat, k: nat, j: nat)
    requires 0 < j <= k < n <= a.Length && NewestFirstBut(a[..k + 1], j)
    requires a[j - 1].createdAt < a[j].createdAt
    modifies a
    ensures NewestFirstBut(a[..k + 1], j - 1) && IsPermutation(old(a[..n]), a[..n])
    ensures a[n..] == old(a[n..])
  {
    ghost var was := a[..k + 1];
    Swap(a, n, j);
    SwapSinks(was, a[..k + 1], j);
  }

  method Swap(a: array<Note>, n: nat, j: nat)
    requires 0 < j < n <= a.Length
    modifies a
    ensures a[j - 1] == old(a[j]) && a[j] == old(a[j - 1])
    ensures forall i :: 0 <= i < a.Length && i != j && i != j - 1 ==> a[i] == old(a[i])
    ensures IsPermutation(old(a[..n]), a[..n])
    ensures a[n..] == old(a[n..])
  {
    ghost var was := a[..n];
    a[j - 1], a[j] := a[j], a[j - 1];
    assert a[..n] == was[j - 1 := was[j]][j := was[j - 1]];
  }

  /** A newest-first arrangement of a list that is not otherwise determined. */
  method Sorted(s: seq<Note>) returns (t: seq<Note>)
    ensures NewestFirst(t) && IsPermutation(s, t)
  {
    var a := new Note[|s|](i requires 0 <= i < |s| => s[i]);
    assert a[..|s|] == s;
    SortNewestFirst(a, |s|);
    t := a[..|s|];
  }
}
