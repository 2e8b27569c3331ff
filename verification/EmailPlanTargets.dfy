/** Target accounts of a plan: what the directory answers, filtered and deduplicated. */
module EmailPlanTargets {
  import opened Basics
  import opened EmailPlanModel

  /** An account as the directory returns it; the identifier may be missing or unreadable. */
  datatype Account = Account(id: Option<nat>, name: string, nick: string)

  datatype Directory = Unavailable | Answered(accounts: seq<Account>)

  function ToTarget(a: Account): Target
    requires a.id.Some?
  {
    Target(a.id.value, if a.nick != "" then a.nick else a.name)
  }

  /** Targets of the first n accounts that have a readable identifier. */
  function ToTargets(accounts: seq<Account>, n: nat): (targets: seq<Target>)
    requires n <= |accounts|
    ensures |targets| <= n
  {
    if n == 0 then []
    else ToTargets(accounts, n - 1) + if accounts[n - 1].id.Some? then [ToTarget(accounts[n - 1])] else []
  }

  predicate SeenBefore(targets: seq<Target>, i: nat)
    requires i < |targets|
  {
    exists j :: 0 <= j < i && targets[j].accountId == targets[i].accountId
  }

  function Dedupe(targets: seq<Target>, n: nat): (out: seq<Target>)
    requires n <= |targets|
    ensures |out| <= n
  {
    if n == 0 then [] else Dedupe(targets, n - 1) + if SeenBefore(targets, n - 1) then [] else [targets[n - 1]]
  }

  /** `out` lists, in order, the first of the first n targets of every account; `at` tells where it stood. */
  ghost predicate PicksFirsts(targets: seq<Target>, n: nat, out: seq<Target>, at: seq<nat>)
    requires n <= |targets|
  {
    && |at| == |out|
    && (forall k :: 0 <= k < |out| ==> at[k] < n && out[k] == targets[at[k]] && !SeenBefore(targets, at[k]))
    && (forall k, l :: 0 <= k < l < |at| ==> at[k] < at[l])
    && (forall i :: 0 <= i < n && !SeenBefore(targets, i) ==> i in at)
  }

  lemma PicksOneMore(targets: seq<Target>, n: nat, out: seq<Target>, at: seq<nat>)
    requires n < |targets| && PicksFirsts(targets, n, out, at) && !SeenBefore(targets, n)
    ensures PicksFirsts(targets, n + 1, out + [targets[n]], at + [n])
  {
    assert n in at + [n] && forall i :: i in at ==> i in at + [n];
  }

  lemma FirstsAreDistinct(targets: seq<Target>, n: nat, out: seq<Target>, at: seq<nat>)
    requires n <= |targets| && PicksFirsts(targets, n, out, at)
    ensures DistinctTargets(out)
  {
    forall k, l | 0 <= k < l < |out|
      ensures out[k].accountId != out[l].accountId
    {
      assert !SeenBefore(targets, at[l]) && at[k] < at[l];
    }
  }

  /** Deduplication keeps, in order, exactly the first target of every account. */
  lemma {:induction false} DedupeKeepsFirsts(targets: seq<Target>, n: nat) returns (at: seq<nat>)
    requires n <= |targets|
    ensures PicksFirsts(targets, n, Dedupe(targets, n), at) && DistinctTargets(Dedupe(targets, n))
  {
    if n == 0 {
      at := [];
    } else {
      at := DedupeKeepsFirsts(targets, n - 1);
      if !SeenBefore(targets, n - 1) {
        PicksOneMore(targets, n - 1, Dedupe(targets, n - 1), at);
        at := at + [n - 1];
      }
    }
    FirstsAreDistinct(targets, n, Dedupe(targets, n), at);
  }

  /** Every account of the input is kept. */
  lemma {:induction false} DedupeCovers(targets: seq<Target>, n: nat, i: nat)
    requires i < n <= |targets|
    ensures exists k :: 0 <= k < |Dedupe(targets, n)| && Dedupe(targets, n)[k].accountId == targets[i].accountId
  {
    if SeenBefore(targets, i) {
      var j :| 0 <= j < i && targets[j].accountId == targets[i].accountId;
      DedupeCovers(targets, n, j);
    } else {
      var at := DedupeKeepsFirsts(targets, n);
      var k :| 0 <= k < |at| && at[k] == i;
      assert Dedupe(targets, n)[k].accountId == targets[i].accountId;
    }
  }

  method DedupeAccounts(targets: seq<Target>) returns (out: seq<Target>)
    ensures out == Dedupe(targets, |targets|)
  {
    var seen: set<nat> := {};
    out := [];
    var i := 0;
    while i < |targets|
      invariant 0 <= i <= |targets| && out == Dedupe(targets, i)
      invariant forall id :: id in seen <==> exists j :: 0 <= j < i && targets[j].accountId == id
    {
      var a := targets[i];
      if a.accountId !in seen {
        seen := seen + {a.accountId};
        out := out + [a];
      }
      i := i + 1;
    }
  }

  /** None when the directory cannot be asked. */
  method ResolveTargetAccounts(broadcastToAll: bool, requested: set<nat>, directory: Directory)
    returns (targets: Option<seq<Target>>)
    ensures targets == Resolved(broadcastToAll, requested, directory)
  {
    if !broadcastToAll && requested == {} {
      return Some([]);
    }
    if directory.Unavailable? {
      return None;
    }
    var accounts := directory.accounts;
    var results: seq<Target> := [];
    var i := 0;
    while i < |accounts|
      invariant 0 <= i <= |accounts| && results == ToTargets(accounts, i)
    {
      if accounts[i].id.Some? {
        results := results + [ToTarget(accounts[i])];
      }
      i := i + 1;
    }
    var deduped := DedupeAccounts(results);
    targets := Some(deduped);
  }

  function Resolved(broadcastToAll: bool, requested: set<nat>, directory: Directory): Option<seq<Target>> {
    if !broadcastToAll && requested == {} then Some([])
    else match directory
      case Unavailable => None
      case Answered(accounts) =>
        var results := ToTargets(accounts, |accounts|);
        Some(Dedupe(results, |results|))
  }

  lemma {:induction false} TargetsAre(accounts: seq<Account>, n: nat)
    requires n <= |accounts|
    ensures forall t :: t in ToTargets(accounts, n) <==> exists i :: 0 <= i < n && Names(accounts[i], t)
  {
    if n > 0 {
      TargetsAre(accounts, n - 1);
      forall t
        ensures t in ToTargets(accounts, n) <==> exists i :: 0 <= i < n && Names(accounts[i], t)
      {
        assert t in ToTargets(accounts, n) <==> t in ToTargets(accounts, n - 1) || Names(accounts[n - 1], t);
      }
    }
  }

  /** The target of an account with a readable id: its nick, or its name when it has none. */
  ghost predicate Names(a: Account, t: Target) {
    a.id == Some(t.accountId) && t.name == if a.nick == "" then a.name else a.nick
  }

  /** The targets are exactly the accounts with a readable id that the directory answered. */
  lemma ResolvedNamesEveryAccount(broadcastToAll: bool, requested: set<nat>, accounts: seq<Account>)
    requires broadcastToAll || requested != {}
    ensures var targets := Resolved(broadcastToAll, requested, Answered(accounts));
            && targets.Some?
            && (forall t :: t in targets.value ==> exists i :: 0 <= i < |accounts| && Names(accounts[i], t))
            && (forall i :: 0 <= i < |accounts| && accounts[i].id.Some? ==>
                  exists t :: t in targets.value && t.accountId == accounts[i].id.value)
  {
    var results := ToTargets(accounts, |accounts|);
    TargetsAre(accounts, |accounts|);
    var at := DedupeKeepsFirsts(results, |results|);
    var targets := Dedupe(results, |results|);
    forall t | t in targets
      ensures exists i :: 0 <= i < |accounts| && Names(accounts[i], t)
    {
      assert t in results;
    }
    forall i | 0 <= i < |accounts| && accounts[i].id.Some?
      ensures exists t :: t in targets && t.accountId == accounts[i].id.value
    {
      var t := Target(accounts[i].id.value, if accounts[i].nick == "" then accounts[i].name else accounts[i].nick);
      assert Names(accounts[i], t) && t in results;
      var j :| 0 <= j < |results| && results[j] == t;
      DedupeCovers(results, |results|, j);
      var k :| 0 <= k < |targets| && targets[k].accountId == t.accountId;
      assert targets[k] in targets;
    }
  }

  /** A plan's targets never name an account twice. */
  lemma ResolvedIsDistinct(broadcastToAll: bool, requested: set<nat>, directory: Directory)
    ensures var targets := Resolved(broadcastToAll, requested, directory);
            targets.Some? ==> DistinctTargets(targets.value)
  {
    if directory.Answered? {
      var results := ToTargets(directory.accounts, |directory.accounts|);
      var at := DedupeKeepsFirsts(results, |results|);
    }
  }
}
