/** Delivery statistics: counts by outcome, grouped by key, the largest groups first. */
module Breakdowns {
  import opened Basics
  import opened PushDelivery

  /** The stored outcome codes; a code the program does not name still counts in the total. */
  datatype Outcome = Known(outcome: DeliveryOutcome) | Other(code: int)

  datatype OutcomeCount = OutcomeCount(outcome: Outcome, count: int)

  datatype KeyOutcomeCount = KeyOutcomeCount(key: string, outcome: Outcome, count: int)

  datatype Summary = Summary(
    total: int,
    successful: int,
    failed: int,
    invalidToken: int,
    skipped: int,
    held: int,
    successRate: Option<real>)

  datatype Breakdown = Breakdown(key: string, summary: Summary)

  // ---------------------------------------------------------------- summaries

  /** Sum of the counts recorded under these outcomes. */
  function CountIn(rows: seq<OutcomeCount>, outcomes: set<Outcome>): int {
    if rows == [] then 0
    else
      var last := rows[|rows| - 1];
      CountIn(rows[..|rows| - 1], outcomes) + if last.outcome in outcomes then last.count else 0
  }

  function Total(rows: seq<OutcomeCount>): int {
    if rows == [] then 0 else Total(rows[..|rows| - 1]) + rows[|rows| - 1].count
  }

  lemma {:induction false} CountWithout(rows: seq<OutcomeCount>, outcomes: set<Outcome>, o: Outcome)
    requires o in outcomes
    ensures CountIn(rows, outcomes) == CountIn(rows, outcomes - {o}) + CountIn(rows, {o})
  {
    if rows != [] {
      CountWithout(rows[..|rows| - 1], outcomes, o);
    }
  }

  lemma {:induction false} CountEverything(rows: seq<OutcomeCount>, outcomes: set<Outcome>)
    requires forall i :: 0 <= i < |rows| ==> rows[i].outcome in outcomes
    ensures CountIn(rows, outcomes) == Total(rows)
  {
    if rows != [] {
      CountEverything(rows[..|rows| - 1], outcomes);
    }
  }

  lemma {:induction false} CountNothing(rows: seq<OutcomeCount>, outcomes: set<Outcome>)
    requires forall i :: 0 <= i < |rows| ==> rows[i].outcome !in outcomes
    ensures CountIn(rows, outcomes) == 0
  {
    if rows != [] {
      CountNothing(rows[..|rows| - 1], outcomes);
    }
  }

  /** Counts add up over lists put together, and one row counts what it says under its own outcome. */
  lemma {:induction false} CountsAddUp(a: seq<OutcomeCount>, b: seq<OutcomeCount>, outcomes: set<Outcome>)
    ensures CountIn(a + b, outcomes) == CountIn(a, outcomes) + CountIn(b, outcomes)
    ensures Total(a + b) == Total(a) + Total(b)
    ensures |a| == 1 ==> Total(a) == a[0].count
    ensures |a| == 1 ==> CountIn(a, outcomes) == if a[0].outcome in outcomes then a[0].count else 0
  {
    if b == [] {
      assert a + b == a;
    } else {
      CountsAddUp(a, b[..|b| - 1], outcomes);
      assert (a + b)[..|a + b| - 1] == a + b[..|b| - 1];
    }
  }

  /** What a summary of these rows says: every counter, and the rate of successes among the attempts. */
  ghost predicate IsSummaryOf(s: Summary, rows: seq<OutcomeCount>) {
    && s.total == Total(rows)
    && s.successful == CountIn(rows, {Known(Success)})
    && s.failed == CountIn(rows, {Known(Failure)})
    && s.invalidToken == CountIn(rows, {Known(InvalidToken)})
    && s.skipped == CountIn(rows, {Known(Skipped)})
    && s.held == CountIn(rows, {Known(Held)})
    && var attempts := s.successful + s.failed + s.invalidToken;
       s.successRate == if attempts == 0 then None else Some(s.successful as real / attempts as real)
  }

  function ValueOf(values: map<Outcome, int>, o: Outcome): int {
    if o in values then values[o] else 0
  }

  /** Adds the counts up outcome by outcome. */
  method Accumulate(rows: seq<OutcomeCount>) returns (values: map<Outcome, int>)
    ensures forall o :: ValueOf(values, o) == CountIn(rows, {o})
    ensures forall i :: 0 <= i < |rows| ==> rows[i].outcome in values
  {
    values := map[];
    for i := 0 to |rows|
      invariant forall o :: ValueOf(values, o) == CountIn(rows[..i], {o})
      invariant forall j :: 0 <= j < i ==> rows[j].outcome in values
    {
      assert rows[..i + 1][..i] == rows[..i];
      values := values[rows[i].outcome := ValueOf(values, rows[i].outcome) + rows[i].count];
    }
    assert rows[..|rows|] == rows;
  }

  method ToSummary(rows: seq<OutcomeCount>) returns (s: Summary)
    ensures IsSummaryOf(s, rows)
  {
    var values := Accumulate(rows);
    var total := 0;
    var left := values.Keys;
    CountEverything(rows, left);
    while left != {}
      invariant left <= values.Keys
      invariant total + CountIn(rows, left) == Total(rows)
      decreases |left|
    {
      var o :| o in left;
      CountWithout(rows, left, o);
      total := total + values[o];
      left := left - {o};
    }
    CountNothing(rows, left);
    var successful := ValueOf(values, Known(Success));
    var failed := ValueOf(values, Known(Failure));
    var invalidToken := ValueOf(values, Known(InvalidToken));
    var attempts := successful + failed + invalidToken;
    var rate := None;
    if attempts != 0 {
      rate := Some(successful as real / attempts as real);
    }
    s := Summary(total, successful, failed, invalidToken, ValueOf(values, Known(Skipped)),
                 ValueOf(values, Known(Held)), rate);
  }

  // ---------------------------------------------------------------- groups

  /** The rows without their keys. */
  function Ungrouped(rows: seq<KeyOutcomeCount>): seq<OutcomeCount> {
    if rows == [] then []
    else
      var last := rows[|rows| - 1];
      Ungrouped(rows[..|rows| - 1]) + [OutcomeCount(last.outcome, last.count)]
  }

  function GroupOf(rows: seq<KeyOutcomeCount>, key: string): seq<OutcomeCount> {
    if rows == [] then []
    else
      var last := rows[|rows| - 1];
      GroupOf(rows[..|rows| - 1], key) + if last.key == key then [OutcomeCount(last.outcome, last.count)] else []
  }

  /** The group lists, in order, the rows with the key, all of them: entry n comes from row at[n]. */
  ghost predicate HoldsRows(rows: seq<KeyOutcomeCount>, key: string, group: seq<OutcomeCount>, at: seq<nat>) {
    && |at| == |group|
    && (forall n :: 0 <= n < |at| ==>
          at[n] < |rows| && rows[at[n]] == KeyOutcomeCount(key, group[n].outcome, group[n].count))
    && (forall m, n :: 0 <= m < n < |at| ==> at[m] < at[n])
    && (forall i :: 0 <= i < |rows| && rows[i].key == key ==> i in at)
  }

  lemma HoldsOneMore(rows: seq<KeyOutcomeCount>, key: string, group: seq<OutcomeCount>, at: seq<nat>,
                     row: KeyOutcomeCount)
    requires HoldsRows(rows, key, group, at) && row.key == key
    ensures HoldsRows(rows + [row], key, group + [OutcomeCount(row.outcome, row.count)], at + [|rows|])
  {
    var more := at + [|rows|];
    assert |rows| in more && forall i :: i in at ==> i in more;
  }

  lemma {:induction false} GroupsHoldTheirRows(rows: seq<KeyOutcomeCount>, key: string) returns (at: seq<nat>)
    ensures HoldsRows(rows, key, GroupOf(rows, key), at)
  {
    if rows == [] {
      at := [];
    } else {
      var init, last := rows[..|rows| - 1], rows[|rows| - 1];
      at := GroupsHoldTheirRows(init, key);
      assert rows == init + [last];
      if last.key == key {
        HoldsOneMore(init, key, GroupOf(init, key), at, last);
        at := at + [|init|];
      }
    }
  }

  /** The keys in the order of their first rows. */
  function KeysOf(rows: seq<KeyOutcomeCount>): seq<string> {
    if rows == [] then []
    else
      var keys, last := KeysOf(rows[..|rows| - 1]), rows[|rows| - 1];
      if last.key in keys then keys else keys + [last.key]
  }

  lemma {:induction false} KeysAre(rows: seq<KeyOutcomeCount>)
    ensures Distinct(KeysOf(rows))
    ensures forall key :: key in KeysOf(rows) <==> exists i :: 0 <= i < |rows| && rows[i].key == key
  {
    if rows != [] {
      KeysAre(rows[..|rows| - 1]);
      assert rows[|rows| - 1].key in KeysOf(rows);
    }
  }

  /** Row i is the first one with its key. */
  ghost predicate OpensGroup(rows: seq<KeyOutcomeCount>, i: nat, key: string) {
    i < |rows| && rows[i].key == key && forall j :: 0 <= j < i ==> rows[j].key != key
  }

  /** The keys come in the order in which their groups are opened. */
  lemma {:induction false} KeysInOrderOfAppearance(rows: seq<KeyOutcomeCount>, a: nat, b: nat)
    requires a < b < |KeysOf(rows)|
    ensures exists i, j :: i < j && OpensGroup(rows, i, KeysOf(rows)[a]) && OpensGroup(rows, j, KeysOf(rows)[b])
  {
    var init, last := rows[..|rows| - 1], rows[|rows| - 1];
    KeysAre(init);
    if b < |KeysOf(init)| {
      KeysInOrderOfAppearance(init, a, b);
      var i, j :| i < j && OpensGroup(init, i, KeysOf(rows)[a]) && OpensGroup(init, j, KeysOf(rows)[b]);
      assert OpensGroup(rows, i, KeysOf(rows)[a]) && OpensGroup(rows, j, KeysOf(rows)[b]);
    } else {
      var i := OpeningOf(init, KeysOf(rows)[a]);
      assert OpensGroup(rows, i, KeysOf(rows)[a]) && OpensGroup(rows, |init|, last.key);
    }
  }

  lemma {:induction false} OpeningOf(rows: seq<KeyOutcomeCount>, key: string) returns (i: nat)
    requires key in KeysOf(rows)
    ensures OpensGroup(rows, i, key)
  {
    var init := rows[..|rows| - 1];
    KeysAre(init);
    if key in KeysOf(init) {
      i := OpeningOf(init, key);
    } else {
      i := |init|;
    }
  }

  /** Sum of one counter over the groups of these keys. */
  function SumOfGroups(rows: seq<KeyOutcomeCount>, keys: seq<string>, outcomes: set<Outcome>): int {
    if keys == [] then 0
    else SumOfGroups(rows, keys[..|keys| - 1], outcomes) + CountIn(GroupOf(rows, keys[|keys| - 1]), outcomes)
  }

  lemma CountOneMoreRow(rows: seq<KeyOutcomeCount>, key: string, outcomes: set<Outcome>)
    requires rows != []
    ensures var last := rows[|rows| - 1];
            CountIn(GroupOf(rows, key), outcomes)
            == CountIn(GroupOf(rows[..|rows| - 1], key), outcomes)
               + if last.key == key && last.outcome in outcomes then last.count else 0
  {
    var last := rows[|rows| - 1];
    var group := GroupOf(rows[..|rows| - 1], key);
    if last.key == key {
      var item := OutcomeCount(last.outcome, last.count);
      assert GroupOf(rows, key) == group + [item];
      assert (group + [item])[..|group|] == group;
    } else {
      assert GroupOf(rows, key) == group;
    }
  }

  lemma {:induction false} SumOneMoreRow(rows: seq<KeyOutcomeCount>, keys: seq<string>, outcomes: set<Outcome>)
    requires rows != [] && Distinct(keys)
    ensures var last := rows[|rows| - 1];
            SumOfGroups(rows, keys, outcomes)
            == SumOfGroups(rows[..|rows| - 1], keys, outcomes)
               + if last.key in keys && last.outcome in outcomes then last.count else 0
  {
    if keys != [] {
      var rest, key := keys[..|keys| - 1], keys[|keys| - 1];
      assert keys == rest + [key] && key !in rest;
      SumOneMoreRow(rows, rest, outcomes);
      CountOneMoreRow(rows, key, outcomes);
    }
  }

  /** Regrouping loses and adds nothing: each counter, summed over the groups, is the ungrouped one. */
  lemma {:induction false} GroupsConserve(rows: seq<KeyOutcomeCount>, keys: seq<string>, outcomes: set<Outcome>)
    requires Distinct(keys) && forall i :: 0 <= i < |rows| ==> rows[i].key in keys
    ensures SumOfGroups(rows, keys, outcomes) == CountIn(Ungrouped(rows), outcomes)
  {
    if rows == [] {
      EmptyGroups(keys, outcomes);
    } else {
      var init := rows[..|rows| - 1];
      GroupsConserve(init, keys, outcomes);
      SumOneMoreRow(rows, keys, outcomes);
      assert Ungrouped(rows)[..|Ungrouped(rows)| - 1] == Ungrouped(init);
    }
  }

  lemma {:induction false} EmptyGroups(keys: seq<string>, outcomes: set<Outcome>)
    ensures SumOfGroups([], keys, outcomes) == 0
  {
    if keys != [] {
      EmptyGroups(keys[..|keys| - 1], outcomes);
    }
  }

  // ---------------------------------------------------------------- the stable sort

  ghost predicate Descending(s: seq<Breakdown>) {
    forall i, j :: 0 <= i < j < |s| ==> s[i].summary.total >= s[j].summary.total
  }

  /** The entries with this total, in order. */
  function WithTotal(s: seq<Breakdown>, total: int): seq<Breakdown> {
    if s == [] then []
    else if s[0].summary.total == total then [s[0]] + WithTotal(s[1..], total)
    else WithTotal(s[1..], total)
  }

  /** A rearrangement that keeps entries with equal totals in their order. */
  ghost predicate Stable(s: seq<Breakdown>, t: seq<Breakdown>) {
    |s| == |t| && multiset(s) == multiset(t) && forall total :: WithTotal(s, total) == WithTotal(t, total)
  }

  lemma HeadOfConcat<T>(s: seq<T>, t: seq<T>)
    requires s != []
    ensures (s + t)[0] == s[0] && (s + t)[1..] == s[1..] + t
  {
  }

  lemma {:induction false} WithTotalConcat(s: seq<Breakdown>, t: seq<Breakdown>, total: int)
    ensures WithTotal(s + t, total) == WithTotal(s, total) + WithTotal(t, total)
  {
    if s == [] {
      assert s + t == t;
    } else {
      WithTotalConcat(s[1..], t, total);
      HeadOfConcat(s, t);
    }
  }

  lemma SwapIsStable(s: seq<Breakdown>, j: nat)
    requires 0 < j < |s| && s[j - 1].summary.total != s[j].summary.total
    ensures Stable(s, s[j - 1 := s[j]][j := s[j - 1]])
  {
    var t := s[j - 1 := s[j]][j := s[j - 1]];
    var front, back, x, y := s[..j - 1], s[j + 1..], s[j - 1], s[j];
    assert s == front + [x, y] + back && t == front + [y, x] + back;
    forall total
      ensures WithTotal(s, total) == WithTotal(t, total)
    {
      WithTotalConcat(front + [x, y], back, total);
      WithTotalConcat(front, [x, y], total);
      WithTotalConcat(front + [y, x], back, total);
      WithTotalConcat(front, [y, x], total);
      PairWithTotal(x, y, total);
    }
    assert multiset(s) == multiset(front) + multiset{x, y} + multiset(back);
    assert multiset(t) == multiset(front) + multiset{y, x} + multiset(back);
  }

  lemma PairWithTotal(x: Breakdown, y: Breakdown, total: int)
    requires x.summary.total != y.summary.total
    ensures WithTotal([x, y], total) == WithTotal([y, x], total)
  {
    WithTotalConcat([x], [y], total);
    WithTotalConcat([y], [x], total);
    assert [x] + [y] == [x, y] && [y] + [x] == [y, x];
    assert [x][1..] == [] && [y][1..] == [];
  }

  /** All entries before i are in order, except that the one at j may belong further to the front. */
  ghost predicate DescendingBut(s: seq<Breakdown>, i: nat, j: nat)
    requires i <= |s|
  {
    && (forall p, q :: 0 <= p < q < i && p != j && q != j ==> s[p].summary.total >= s[q].summary.total)
    && (forall q :: j < q < i ==> s[j].summary.total >= s[q].summary.total)
  }

  /** One exchange of the inner loop. */
  method Exchange(a: array<Breakdown>, i: nat, j: nat)
    requires 0 < j < i <= a.Length && DescendingBut(a[..], i, j)
    requires a[j - 1].summary.total < a[j].summary.total
    modifies a
    ensures DescendingBut(a[..], i, j - 1) && Stable(old(a[..]), a[..])
  {
    ghost var was := a[..];
    SwapIsStable(was, j);
    a[j - 1], a[j] := a[j], a[j - 1];
    assert a[..] == was[j - 1 := was[j]][j := was[j - 1]];
  }

  /** Moves entry i to its place among the entries before it. */
  method Insert(a: array<Breakdown>, i: nat)
    requires i < a.Length && Descending(a[..i])
    modifies a
    ensures Descending(a[..i + 1]) && Stable(old(a[..]), a[..])
  {
    var j := i;
    while j > 0 && a[j - 1].summary.total < a[j].summary.total
      invariant 0 <= j <= i && DescendingBut(a[..], i + 1, j)
      invariant Stable(old(a[..]), a[..])
    {
      Exchange(a, i + 1, j);
      j := j - 1;
    }
  }

  method SortBreakdowns(a: array<Breakdown>)
    modifies a
    ensures Descending(a[..]) && Stable(old(a[..]), a[..])
  {
    var i := 1;
    while i < a.Length
      invariant 1 <= i && (i <= a.Length || a.Length == 0)
      invariant i <= a.Length ==> Descending(a[..i])
      invariant Stable(old(a[..]), a[..])
    {
      Insert(a, i);
      i := i + 1;
    }
    assert a.Length > 0 ==> a[..a.Length] == a[..];
  }

  lemma HeadIsLargest(s: seq<Breakdown>, t: seq<Breakdown>)
    requires s != [] && t != [] && Descending(s) && multiset(s) == multiset(t)
    ensures t[0].summary.total <= s[0].summary.total
  {
    assert t[0] in multiset(t);
    assert t[0] in s;
  }

  lemma TailWithTotal(s: seq<Breakdown>, total: int)
    requires s != []
    ensures WithTotal(s[1..], total) == WithTotal(s, total)[if s[0].summary.total == total then 1 else 0..]
  {
  }

  lemma TailsAreStable(s: seq<Breakdown>, t: seq<Breakdown>)
    requires s != [] && t != [] && Stable(s, t) && s[0] == t[0]
    ensures Stable(s[1..], t[1..])
  {
    assert s == [s[0]] + s[1..] && t == [t[0]] + t[1..];
    assert multiset(s[1..]) == multiset(s) - multiset{s[0]};
    forall total
      ensures WithTotal(s[1..], total) == WithTotal(t[1..], total)
    {
      TailWithTotal(s, total);
      TailWithTotal(t, total);
    }
  }

  /** Order and stability leave exactly one result. */
  lemma {:induction false} StableSortIsUnique(s: seq<Breakdown>, t: seq<Breakdown>)
    requires Descending(s) && Descending(t) && Stable(s, t)
    ensures s == t
  {
    if s != [] {
      HeadIsLargest(s, t);
      HeadIsLargest(t, s);
      var total := s[0].summary.total;
      assert WithTotal(s, total)[0] == s[0] && WithTotal(t, total)[0] == t[0];
      TailsAreStable(s, t);
      StableSortIsUnique(s[1..], t[1..]);
    }
  }

  // ---------------------------------------------------------------- the breakdown

  /** One entry per key, in order of appearance, each summarising the rows of its key. */
  ghost predicate IsGrouping(rows: seq<KeyOutcomeCount>, keys: seq<string>, out: seq<Breakdown>) {
    && |out| == |keys|
    && forall i :: 0 <= i < |out| ==> out[i].key == keys[i] && IsSummaryOf(out[i].summary, GroupOf(rows, keys[i]))
  }

  /** The breakdown is the stable sort of the groups in order of appearance. */
  ghost predicate IsBreakdownOf(rows: seq<KeyOutcomeCount>, out: seq<Breakdown>) {
    Descending(out) && exists groups :: IsGrouping(rows, KeysOf(rows), groups) && Stable(groups, out)
  }

  function RowsOf(grouped: map<string, seq<OutcomeCount>>, key: string): seq<OutcomeCount> {
    if key in grouped then grouped[key] else []
  }

  method GroupRows(rows: seq<KeyOutcomeCount>) returns (grouped: map<string, seq<OutcomeCount>>, keys: seq<string>)
    ensures keys == KeysOf(rows) && forall key :: key in keys <==> key in grouped
    ensures forall key :: RowsOf(grouped, key) == GroupOf(rows, key)
  {
    grouped, keys := map[], [];
    for i := 0 to |rows|
      invariant keys == KeysOf(rows[..i]) && forall key :: key in keys <==> key in grouped
      invariant forall key :: RowsOf(grouped, key) == GroupOf(rows[..i], key)
    {
      assert rows[..i + 1][..i] == rows[..i];
      var row := rows[i];
      if row.key !in grouped {
        keys := keys + [row.key];
      }
      grouped := grouped[row.key := RowsOf(grouped, row.key) + [OutcomeCount(row.outcome, row.count)]];
    }
    assert rows[..|rows|] == rows;
  }

  method Summarise(grouped: map<string, seq<OutcomeCount>>, keys: seq<string>) returns (out: seq<Breakdown>)
    requires forall key :: key in keys ==> key in grouped
    ensures |out| == |keys|
    ensures forall i :: 0 <= i < |out| ==> out[i].key == keys[i] && IsSummaryOf(out[i].summary, grouped[keys[i]])
  {
    out := [];
    for i := 0 to |keys|
      invariant |out| == i
      invariant forall j :: 0 <= j < i ==> out[j].key == keys[j] && IsSummaryOf(out[j].summary, grouped[keys[j]])
    {
      var summary := ToSummary(grouped[keys[i]]);
      out := out + [Breakdown(keys[i], summary)];
    }
  }

  method BuildBreakdowns(rows: seq<KeyOutcomeCount>) returns (out: seq<Breakdown>)
    ensures IsBreakdownOf(rows, out)
  {
    var grouped, keys := GroupRows(rows);
    var groups := Summarise(grouped, keys);
    assert IsGrouping(rows, KeysOf(rows), groups) by {
      forall i | 0 <= i < |groups|
        ensures grouped[keys[i]] == GroupOf(rows, keys[i])
      {
        assert RowsOf(grouped, keys[i]) == GroupOf(rows, keys[i]);
      }
    }
    var a := new Breakdown[|groups|](i requires 0 <= i < |groups| => groups[i]);
    assert a[..] == groups;
    SortBreakdowns(a);
    out := a[..];
  }

  /** The counters of a summary, by what they count; the total counts everything. */
  datatype Counter = All | Just(outcome: DeliveryOutcome)

  function Read(s: Summary, c: Counter): int {
    match c
    case All => s.total
    case Just(Success) => s.successful
    case Just(Failure) => s.failed
    case Just(InvalidToken) => s.invalidToken
    case Just(Skipped) => s.skipped
    case Just(Held) => s.held
  }

  function SumOf(out: seq<Breakdown>, c: Counter): int {
    if out == [] then 0 else SumOf(out[..|out| - 1], c) + Read(out[|out| - 1].summary, c)
  }

  lemma {:induction false} SumOfConcat(s: seq<Breakdown>, t: seq<Breakdown>, c: Counter)
    ensures SumOf(s + t, c) == SumOf(s, c) + SumOf(t, c)
  {
    if t == [] {
      assert s + t == s;
    } else {
      SumOfConcat(s, t[..|t| - 1], c);
      assert (s + t)[..|s + t| - 1] == s + t[..|t| - 1];
    }
  }

  lemma RemoveOne<T>(init: seq<T>, x: T, front: seq<T>, back: seq<T>)
    requires multiset(init + [x]) == multiset(front + [x] + back)
    ensures multiset(init) == multiset(front + back)
  {
    assert multiset(init + [x]) == multiset(init) + multiset{x};
    assert multiset(front + [x] + back) == multiset(front) + multiset{x} + multiset(back);
    assert multiset(init) == multiset(init + [x]) - multiset{x};
  }

  lemma {:induction false} SumOfPermutation(s: seq<Breakdown>, t: seq<Breakdown>, c: Counter)
    requires multiset(s) == multiset(t)
    ensures SumOf(s, c) == SumOf(t, c)
  {
    if s == [] {
      assert |multiset(t)| == |t|;
    } else {
      var init, last := s[..|s| - 1], s[|s| - 1];
      assert s == init + [last] && last in multiset(s);
      var front, back := Around(t, last);
      RemoveOne(init, last, front, back);
      SumOfPermutation(init, front + back, c);
      SumOfInsertion(front, last, back, c);
    }
  }

  lemma Around<T>(t: seq<T>, x: T) returns (front: seq<T>, back: seq<T>)
    requires x in multiset(t)
    ensures t == front + [x] + back
  {
    var i :| 0 <= i < |t| && t[i] == x;
    front, back := t[..i], t[i + 1..];
  }

  lemma SumOfInsertion(front: seq<Breakdown>, x: Breakdown, back: seq<Breakdown>, c: Counter)
    ensures SumOf(front + [x] + back, c) == SumOf(front + back, c) + Read(x.summary, c)
  {
    SumOfConcat(front + [x], back, c);
    SumOfConcat(front, back, c);
    assert (front + [x])[..|front|] == front;
  }

  /** The outcomes a counter counts, among those that occur. */
  ghost function Counted(rows: seq<KeyOutcomeCount>, c: Counter): set<Outcome> {
    match c
    case All => set i | 0 <= i < |rows| :: rows[i].outcome
    case Just(o) => {Known(o)}
  }

  lemma {:induction false} GroupOutcomes(rows: seq<KeyOutcomeCount>, key: string, i: nat)
    requires i < |GroupOf(rows, key)|
    ensures GroupOf(rows, key)[i].outcome in Counted(rows, All)
  {
    var init, last := rows[..|rows| - 1], rows[|rows| - 1];
    if i < |GroupOf(init, key)| {
      GroupOutcomes(init, key, i);
      var j :| 0 <= j < |init| && init[j].outcome == GroupOf(init, key)[i].outcome;
      assert rows[j] == init[j];
    } else {
      assert rows[|rows| - 1].outcome in Counted(rows, All);
    }
  }

  lemma ReadIsCount(rows: seq<KeyOutcomeCount>, group: seq<OutcomeCount>, s: Summary, c: Counter)
    requires IsSummaryOf(s, group)
    requires forall i :: 0 <= i < |group| ==> group[i].outcome in Counted(rows, All)
    ensures Read(s, c) == CountIn(group, Counted(rows, c))
  {
    if c == All {
      CountEverything(group, Counted(rows, All));
    }
  }

  lemma {:induction false} SumOfGrouping(rows: seq<KeyOutcomeCount>, keys: seq<string>, groups: seq<Breakdown>,
                                         c: Counter)
    requires IsGrouping(rows, keys, groups)
    ensures SumOf(groups, c) == SumOfGroups(rows, keys, Counted(rows, c))
  {
    if keys != [] {
      var n := |keys| - 1;
      SumOfGrouping(rows, keys[..n], groups[..n], c);
      forall i | 0 <= i < |GroupOf(rows, keys[n])|
        ensures GroupOf(rows, keys[n])[i].outcome in Counted(rows, All)
      {
        GroupOutcomes(rows, keys[n], i);
      }
      ReadIsCount(rows, GroupOf(rows, keys[n]), groups[n].summary, c);
    }
  }

  lemma {:induction false} UngroupedIs(rows: seq<KeyOutcomeCount>)
    ensures |Ungrouped(rows)| == |rows|
    ensures forall i :: 0 <= i < |rows| ==> Ungrouped(rows)[i] == OutcomeCount(rows[i].outcome, rows[i].count)
  {
    if rows != [] {
      UngroupedIs(rows[..|rows| - 1]);
    }
  }

  lemma UngroupedRead(rows: seq<KeyOutcomeCount>, whole: Summary, c: Counter)
    requires IsSummaryOf(whole, Ungrouped(rows))
    ensures Read(whole, c) == CountIn(Ungrouped(rows), Counted(rows, c))
  {
    UngroupedIs(rows);
    forall i | 0 <= i < |Ungrouped(rows)|
      ensures Ungrouped(rows)[i].outcome in Counted(rows, All)
    {
      assert rows[i].outcome in Counted(rows, All);
    }
    ReadIsCount(rows, Ungrouped(rows), whole, c);
  }

  /** Every counter, summed over the breakdown, is the counter of the ungrouped summary. */
  lemma BreakdownConserves(rows: seq<KeyOutcomeCount>, out: seq<Breakdown>, whole: Summary, c: Counter)
    requires IsBreakdownOf(rows, out) && IsSummaryOf(whole, Ungrouped(rows))
    ensures SumOf(out, c) == Read(whole, c)
  {
    var groups :| IsGrouping(rows, KeysOf(rows), groups) && Stable(groups, out);
    SumOfPermutation(groups, out, c);
    SumOfGrouping(rows, KeysOf(rows), groups, c);
    KeysAre(rows);
    GroupsConserve(rows, KeysOf(rows), Counted(rows, c));
    UngroupedRead(rows, whole, c);
  }

  lemma GroupingIsUnique(rows: seq<KeyOutcomeCount>, keys: seq<string>, s: seq<Breakdown>, t: seq<Breakdown>)
    requires IsGrouping(rows, keys, s) && IsGrouping(rows, keys, t)
    ensures s == t
  {
    forall i | 0 <= i < |keys|
      ensures s[i] == t[i]
    {
      SummaryIsUnique(GroupOf(rows, keys[i]), s[i].summary, t[i].summary);
    }
  }

  lemma SummaryIsUnique(rows: seq<OutcomeCount>, s: Summary, t: Summary)
    requires IsSummaryOf(s, rows) && IsSummaryOf(t, rows)
    ensures s == t
  {
  }

  lemma StableFromSame(s: seq<Breakdown>, a: seq<Breakdown>, b: seq<Breakdown>)
    requires Stable(s, a) && Stable(s, b)
    ensures Stable(a, b)
  {
  }

  /** The rows determine the breakdown, although the code sums up in no fixed order. */
  lemma BreakdownIsUnique(rows: seq<KeyOutcomeCount>, a: seq<Breakdown>, b: seq<Breakdown>)
    requires IsBreakdownOf(rows, a) && IsBreakdownOf(rows, b)
    ensures a == b
  {
    var groups :| IsGrouping(rows, KeysOf(rows), groups) && Stable(groups, a);
    var others :| IsGrouping(rows, KeysOf(rows), others) && Stable(others, b);
    GroupingIsUnique(rows, KeysOf(rows), groups, others);
    StableFromSame(groups, a, b);
    StableSortIsUnique(a, b);
  }
}
