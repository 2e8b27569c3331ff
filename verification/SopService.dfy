/** The SOP listing as the service runs it: two queries, a merge, an unstable sort, a slice. */
module SopService {
  import opened Basics
  import opened Apps
  import opened Notifications
  import opened Replay
  import opened SopListing

  predicate Matches(row: Note, account: nat, resolved: string, defaultApp: string) {
    row.accountId == account && MatchesApp(row.appId, resolved, defaultApp)
  }

  function Matching(rows: seq<Note>, account: nat, resolved: string, defaultApp: string): seq<Note> {
    if rows == [] then []
    else
      var last := rows[|rows| - 1];
      Matching(rows[..|rows| - 1], account, resolved, defaultApp)
      + if Matches(last, account, resolved, defaultApp) then [last] else []
  }

  /** The rows of the account that are the app's; rows that name no app are the default app's. */
  lemma {:induction false} MatchingIs(rows: seq<Note>, account: nat, resolved: string, defaultApp: string)
    ensures var m := Matching(rows, account, resolved, defaultApp);
            && (forall x :: x in m <==>
                  && x in rows && x.accountId == account
                  && (resolved == "" || x.appId == Some(resolved)
                      || (resolved == defaultApp && x.appId in {None, Some("")})))
            && (DistinctIds(rows) ==> DistinctIds(m))
  {
    if rows != [] {
      var init, last := rows[..|rows| - 1], rows[|rows| - 1];
      MatchingIs(init, account, resolved, defaultApp);
      assert rows == init + [last];
      var m := Matching(init, account, resolved, defaultApp);
      if DistinctIds(rows) {
        DistinctAppend(init, last);
        DistinctAppend(m, last);
        forall id | id in Ids(m)
          ensures id in Ids(init)
        {
          var i :| 0 <= i < |m| && m[i].id == id;
          IdOf(init, m[i]);
        }
      }
    }
  }

  class NotificationStore {
    var rows: seq<Note>

    /** The primary key. */
    ghost predicate Valid()
      reads this
    {
      DistinctIds(rows)
    }

    constructor ()
      ensures Valid() && rows == []
    {
      rows := [];
    }

    method SaveNotification(n: Note)
      requires Valid() && n.id !in Ids(rows)
      modifies this
      ensures Valid() && rows == old(rows) + [n]
    {
      DistinctAppend(rows, n);
      rows := rows + [n];
    }

    method Select(account: nat, resolved: string, defaultApp: string) returns (found: seq<Note>)
      ensures found == Matching(rows, account, resolved, defaultApp)
    {
      found := [];
      var i := 0;
      while i < |rows|
        invariant 0 <= i <= |rows| && found == Matching(rows[..i], account, resolved, defaultApp)
      {
        assert rows[..i + 1][..i] == rows[..i];
        if Matches(rows[i], account, resolved, defaultApp) {
          found := found + [rows[i]];
        }
        i := i + 1;
      }
      assert rows[..|rows|] == rows;
    }

    /**
      Count, count of duplicates, and the newest `offset + take + replayCount` matching rows; `all`
      is the order in which the database sorted the matching rows.
    */
    method ListNotificationsForSop(account: nat, resolved: string, defaultApp: string, offset: nat, take: nat,
                                   replayCount: nat, replayIds: seq<nat>)
      returns (items: seq<Note>, total: nat, duplicate: nat, ghost all: seq<Note>)
      ensures NewestFirst(all) && IsPermutation(Matching(rows, account, resolved, defaultApp), all)
      ensures items == Newest(all, offset + take + replayCount)
      ensures |items| == Min(offset + take + replayCount, |all|)
      ensures forall k :: 0 <= k < |items| ==> items[k] == all[k]
      ensures total == |Matching(rows, account, resolved, defaultApp)|
      ensures total == |all| && duplicate == Duplicates(all, IdSet(replayIds))
    {
      var found := Select(account, resolved, defaultApp);
      var sorted := Sorted(found);
      PermutationMembers(found, sorted);
      all := sorted;
      total := |found|;
      duplicate := 0;
      var i := 0;
      while i < |sorted|
        invariant 0 <= i <= |sorted| && duplicate == Duplicates(sorted[..i], IdSet(replayIds))
      {
        assert sorted[..i + 1][..i] == sorted[..i];
        if sorted[i].id in replayIds {
          duplicate := duplicate + 1;
        }
        i := i + 1;
      }
      assert sorted[..|sorted|] == sorted;
      items := sorted[..Min(offset + take + replayCount, |sorted|)];
    }
  }

  /** The map's notes in some order. */
  method Values(m: map<nat, Note>) returns (notes: seq<Note>)
    requires Keyed(m)
    ensures DistinctIds(notes) && Ids(notes) == m.Keys
    ensures forall i :: 0 <= i < |notes| ==> notes[i].id in m && m[notes[i].id] == notes[i]
  {
    notes := [];
    var keys := m.Keys;
    while keys != {}
      invariant keys <= m.Keys && DistinctIds(notes) && Ids(notes) == m.Keys - keys
      invariant forall i :: 0 <= i < |notes| ==> notes[i].id in m && m[notes[i].id] == notes[i]
      decreases keys
    {
      var id :| id in keys;
      DistinctAppend(notes, m[id]);
      IdsAppend(notes, m[id]);
      notes := notes + [m[id]];
      keys := keys - {id};
    }
  }

  lemma PermutationOrdering(notes: seq<Note>, ordered: seq<Note>, m: map<nat, Note>)
    requires IsPermutation(notes, ordered) && NewestFirst(ordered)
    requires DistinctIds(notes) && Ids(notes) == m.Keys
    requires forall i :: 0 <= i < |notes| ==> notes[i].id in m && m[notes[i].id] == notes[i]
    ensures OrderingOf(ordered, m)
  {
    PermutationMembers(notes, ordered);
    PermutationDistinct(notes, ordered);
    forall i | 0 <= i < |ordered|
      ensures ordered[i].id in m && m[ordered[i].id] == ordered[i]
    {
      assert ordered[i] in notes;
    }
  }

  class SopService {
    const replay: ReplayBuffer
    const store: NotificationStore

    constructor (replay: ReplayBuffer, store: NotificationStore)
      ensures this.replay == replay && this.store == store
    {
      this.replay, this.store := replay, store;
    }

    /** Ids of the replay list without repetition. */
    method DistinctReplayIds(notes: seq<Note>) returns (ids: seq<nat>)
      ensures IdSet(ids) == Ids(notes)
    {
      var seen: set<nat> := {};
      ids := [];
      var i := 0;
      while i < |notes|
        invariant 0 <= i <= |notes| && seen == Ids(notes[..i]) && IdSet(ids) == seen
      {
        assert notes[..i + 1] == notes[..i] + [notes[i]];
        IdsAppend(notes[..i], notes[i]);
        if notes[i].id !in seen {
          seen := seen + {notes[i].id};
          ids := ids + [notes[i].id];
        }
        i := i + 1;
      }
      assert notes[..|notes|] == notes;
    }

    method Merge(replayNotes: seq<Note>, dbNotes: seq<Note>) returns (merged: map<nat, Note>)
      ensures merged == Merged(replayNotes, dbNotes)
    {
      merged := map[];
      var i := 0;
      while i < |replayNotes|
        invariant 0 <= i <= |replayNotes| && merged == ReplayMap(replayNotes, i)
      {
        merged := merged[replayNotes[i].id := replayNotes[i]];
        i := i + 1;
      }
      var j := 0;
      while j < |dbNotes|
        invariant 0 <= j <= |dbNotes| && merged == WithRows(ReplayMap(replayNotes, |replayNotes|), dbNotes, j)
      {
        var n := dbNotes[j];
        if n.id !in merged || n.createdAt > merged[n.id].createdAt {
          merged := merged[n.id := n];
        }
        j := j + 1;
      }
    }

    method PageFrom(merged: map<nat, Note>, offset: nat, take: nat) returns (page: seq<Note>)
      requires Keyed(merged)
      ensures PageOf(merged, offset, take, page)
    {
      var values := Values(merged);
      var ordered := Sorted(values);
      PermutationOrdering(values, ordered, merged);
      var from := offset;
      if from > |ordered| {
        from := |ordered|;
      }
      var end := from + take;
      if end > |ordered| {
        end := |ordered|;
      }
      page := ordered[from..end];
      assert IsPage(ordered, offset, take, page);
    }

    /**
      The page is a page of the full merge of the replay list with every matching row, and the
      total is the number of distinct notes exactly when the replay list has distinct ids.
    */
    method ListSopNotifications(account: nat, offset: nat, take: nat, resolved: string, defaultApp: string)
      returns (page: seq<Note>, total: int)
      requires store.Valid()
      ensures PageOf(Merged(ListOf(replay.cache, account), Matching(store.rows, account, resolved, defaultApp)),
                     offset, take, page)
      ensures var matching, list := Matching(store.rows, account, resolved, defaultApp), ListOf(replay.cache, account);
              && total == |matching| + |list| - |Ids(matching) * Ids(list)|
              && (total == |Ids(matching) + Ids(list)| <==> DistinctIds(list))
    {
      var replayNotifications := replay.GetNotifications(account);
      var replayIds := DistinctReplayIds(replayNotifications);
      var items, dbTotal, duplicates;
      ghost var rows;
      items, dbTotal, duplicates, rows :=
        store.ListNotificationsForSop(account, resolved, defaultApp, offset, take, |replayNotifications|, replayIds);
      ghost var matching := Matching(store.rows, account, resolved, defaultApp);
      MatchingIs(store.rows, account, resolved, defaultApp);
      PermutationDistinct(matching, rows);
      PermutationMembers(matching, rows);
      var merged := Merge(replayNotifications, items);
      MergedKeyed(replayNotifications, items);
      page := PageFrom(merged, offset, take);
      total := dbTotal + |replayNotifications| - duplicates;
      TruncatedPageIsFullPage(replayNotifications, rows, offset + take + |replayNotifications|, offset, take, page);
      MergedIgnoresOrder(replayNotifications, matching, rows);
      DuplicatesAre(rows, Ids(replayNotifications));
      TotalIsUnionIff(replayNotifications, rows);
    }
  }
}
