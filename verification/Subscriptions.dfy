/**
  The subscription table and the operations that change it.  Any write can be stored, lost, or stored
  with an error reported; no uniqueness constraint of the database is relied on.
*/
module Subscriptions {
  import opened Basics
  import opened Database
  import opened Apps
  import opened Devices

  // ---------------------------------------------------------------- queries

  predicate IsFor(row: Subscription, account: nat, device: string, provider: Provider) {
    row.accountId == account && row.deviceId == device && row.provider == provider
  }

  datatype Query = ForDevice(account: nat, device: string, provider: Provider) | WithSopToken(token: string)

  predicate Answers(row: Subscription, q: Query) {
    match q
    case ForDevice(account, device, provider) => IsFor(row, account, device, provider)
    case WithSopToken(token) => row.provider == Sop && row.token == token && row.active
  }

  /** The order of the single-row queries: oldest first, then by id. */
  predicate Before(a: Subscription, b: Subscription) {
    a.createdAt < b.createdAt || (a.createdAt == b.createdAt && a.id < b.id)
  }

  function First(rows: seq<Subscription>, q: Query): Option<Subscription> {
    if rows == [] then None
    else
      var best, last := First(rows[..|rows| - 1], q), rows[|rows| - 1];
      if Answers(last, q) && (best.None? || Before(last, best.value)) then Some(last) else best
  }

  lemma {:induction false} FirstIs(rows: seq<Subscription>, q: Query)
    ensures First(rows, q) == None <==> forall row :: row in rows ==> !Answers(row, q)
    ensures First(rows, q).Some? ==>
              var r := First(rows, q).value;
              && r in rows && Answers(r, q)
              && forall row :: row in rows && Answers(row, q) ==>
                   r.createdAt < row.createdAt || (r.createdAt == row.createdAt && r.id <= row.id)
  {
    if rows != [] {
      var init := rows[..|rows| - 1];
      FirstIs(init, q);
      assert rows == init + [rows[|rows| - 1]];
    }
  }

  // ---------------------------------------------------------------- changes

  function Deactivated(rows: seq<Subscription>, account: nat, device: string, provider: Provider)
    : seq<Subscription>
  {
    seq(|rows|, i requires 0 <= i < |rows| =>
      if IsFor(rows[i], account, device, provider) then rows[i].(active := false) else rows[i])
  }

  function Rewritten(rows: seq<Subscription>, r: Subscription): seq<Subscription> {
    seq(|rows|, i requires 0 <= i < |rows| => if rows[i].id == r.id then r else rows[i])
  }

  datatype Victims = OfDevice(device: string) | WithIds(ids: set<nat>) | OneOf(account: nat, id: nat)

  predicate Doomed(row: Subscription, v: Victims) {
    match v
    case OfDevice(device) => row.deviceId == device
    case WithIds(ids) => row.id in ids
    case OneOf(account, id) => row.accountId == account && row.id == id
  }

  function Spared(rows: seq<Subscription>, v: Victims): seq<Subscription> {
    if rows == [] then []
    else
      var last := rows[|rows| - 1];
      Spared(rows[..|rows| - 1], v) + if Doomed(last, v) then [] else [last]
  }

  // ---------------------------------------------------------------- events

  /** `appId` is the resolved app, `appKnown` whether it is configured. */
  datatype Request = Request(
    account: nat,
    device: string,
    provider: Provider,
    token: string,
    active: bool,
    appId: string,
    appKnown: bool,
    newId: nat,
    now: int)

  datatype Faults = Faults(deactivate: Write, readable: bool, save: Write, countable: bool)

  datatype Event = Subscribe(req: Request, faults: Faults) | Delete(victims: Victims, w: Write)

  function NewRow(req: Request): Subscription {
    Subscription(req.newId, req.account, req.device, req.provider, req.token, req.active, Some(req.appId), req.now)
  }

  function Found(rows: seq<Subscription>, req: Request): Option<Subscription> {
    First(rows, ForDevice(req.account, req.device, req.provider))
  }

  function Updated(row: Subscription, req: Request): Subscription {
    row.(deviceId := req.device, provider := req.provider, token := req.token, active := req.active,
         appId := Some(req.appId))
  }

  function Quieted(rows: seq<Subscription>, req: Request, f: Faults): seq<Subscription> {
    if req.appKnown && req.active && f.deactivate != Lost then
      Deactivated(rows, req.account, req.device, req.provider)
    else rows
  }

  /** The request gets as far as writing its row. */
  predicate GetsToSave(req: Request, f: Faults) {
    req.appKnown && (req.active ==> f.deactivate == Stored) && f.readable
  }

  /** The request's token is stored, whatever the caller is told. */
  predicate Lands(req: Request, f: Faults) {
    GetsToSave(req, f) && f.save != Lost
  }

  function Saved(rows: seq<Subscription>, req: Request): seq<Subscription> {
    match Found(rows, req)
    case Some(row) => Rewritten(rows, Updated(row, req))
    case None => rows + [NewRow(req)]
  }

  function Subscribed(rows: seq<Subscription>, req: Request, f: Faults): seq<Subscription> {
    var quiet := Quieted(rows, req, f);
    if Lands(req, f) then Saved(quiet, req) else quiet
  }

  /** What the caller is told; an error otherwise. */
  function Reply(rows: seq<Subscription>, req: Request, f: Faults): Option<Subscription> {
    if !GetsToSave(req, f) || f.save != Stored then None
    else match Found(Quieted(rows, req, f), req)
      case Some(row) => Some(Updated(row, req))
      case None => if f.countable then Some(NewRow(req)) else None
  }

  function Step(rows: seq<Subscription>, e: Event): seq<Subscription> {
    match e
    case Subscribe(req, f) => Subscribed(rows, req, f)
    case Delete(v, w) => if w == Lost then rows else Spared(rows, v)
  }

  /** The table after a run from the empty table. */
  function Run(events: seq<Event>): seq<Subscription> {
    if events == [] then [] else Step(Run(events[..|events| - 1]), events[|events| - 1])
  }

  // ---------------------------------------------------------------- one row per device

  ghost predicate OnePerDevice(rows: seq<Subscription>) {
    forall i, j :: 0 <= i < j < |rows| ==>
      !IsFor(rows[j], rows[i].accountId, rows[i].deviceId, rows[i].provider)
  }

  ghost predicate Keyed(rows: seq<Subscription>) {
    OnePerDevice(rows) && DistinctSubs(rows)
  }

  /** Ids, owners, devices and providers agree, row by row. */
  ghost predicate SameKeys(a: seq<Subscription>, b: seq<Subscription>) {
    && |a| == |b|
    && forall i :: 0 <= i < |a| ==>
         a[i].id == b[i].id && IsFor(a[i], b[i].accountId, b[i].deviceId, b[i].provider)
  }

  lemma SameKeysKeepKeyed(a: seq<Subscription>, b: seq<Subscription>)
    requires Keyed(a) && SameKeys(a, b)
    ensures Keyed(b)
  {
  }

  lemma {:induction false} SparedIs(rows: seq<Subscription>, v: Victims)
    ensures forall row :: row in Spared(rows, v) <==> row in rows && !Doomed(row, v)
    ensures Keyed(rows) ==> Keyed(Spared(rows, v))
  {
    if rows != [] {
      var init, last := rows[..|rows| - 1], rows[|rows| - 1];
      SparedIs(init, v);
      assert rows == init + [last];
      if Keyed(rows) && !Doomed(last, v) {
        assert Keyed(init);
        var kept := Spared(init, v);
        forall i | 0 <= i < |kept|
          ensures kept[i].id != last.id && !IsFor(last, kept[i].accountId, kept[i].deviceId, kept[i].provider)
        {
          assert kept[i] in init;
        }
      }
    }
  }

  lemma SparedByCase(rows: seq<Subscription>, v: Victims)
    ensures v.OfDevice? ==> forall row :: row in Spared(rows, v) <==> row in rows && row.deviceId != v.device
    ensures v.WithIds? ==> forall row :: row in Spared(rows, v) <==> row in rows && row.id !in v.ids
    ensures v.OneOf? ==>
              forall row :: row in Spared(rows, v) <==> row in rows && !(row.accountId == v.account && row.id == v.id)
  {
    SparedIs(rows, v);
  }

  /** A saved request either rewrites the one row of its device or adds the first one. */
  lemma SavedKeepsKeyed(rows: seq<Subscription>, req: Request)
    requires Keyed(rows) && forall row :: row in rows ==> row.id != req.newId
    ensures Keyed(Saved(rows, req))
  {
    FirstIs(rows, ForDevice(req.account, req.device, req.provider));
    match Found(rows, req) {
      case Some(row) =>
        SameKeysKeepKeyed(rows, Saved(rows, req));
      case None =>
        forall i | 0 <= i < |rows|
          ensures rows[i].id != req.newId && !IsFor(NewRow(req), rows[i].accountId, rows[i].deviceId, rows[i].provider)
        {
          assert rows[i] in rows;
        }
    }
  }

  lemma SubscribedKeepsKeyed(rows: seq<Subscription>, req: Request, f: Faults)
    requires Keyed(rows) && forall row :: row in rows ==> row.id != req.newId
    ensures Keyed(Subscribed(rows, req, f))
  {
    var quiet := Quieted(rows, req, f);
    SameKeysKeepKeyed(rows, quiet);
    forall row | row in quiet
      ensures row.id != req.newId
    {
      var i :| 0 <= i < |quiet| && quiet[i] == row;
      assert rows[i] in rows;
    }
    SavedKeepsKeyed(quiet, req);
  }

  /** Inserts are given ids that were not given before. */
  ghost predicate FreshIds(events: seq<Event>) {
    forall i, j :: 0 <= i < j < |events| && events[i].Subscribe? && events[j].Subscribe? ==>
      events[i].req.newId != events[j].req.newId
  }

  ghost predicate Issued(events: seq<Event>, id: nat) {
    exists i :: 0 <= i < |events| && events[i].Subscribe? && events[i].req.newId == id
  }

  lemma StepIdsAre(rows: seq<Subscription>, e: Event, row: Subscription)
    requires row in Step(rows, e)
    ensures (exists r :: r in rows && r.id == row.id) || (e.Subscribe? && e.req.newId == row.id)
  {
    match e {
      case Delete(v, w) =>
        SparedIs(rows, v);
      case Subscribe(req, f) =>
        var quiet, next := Quieted(rows, req, f), Subscribed(rows, req, f);
        var i :| 0 <= i < |next| && next[i] == row;
        if i < |rows| {
          assert quiet[i].id == rows[i].id && rows[i] in rows;
        }
    }
  }

  lemma {:induction false} IdsWereIssued(events: seq<Event>, row: Subscription)
    requires row in Run(events)
    ensures Issued(events, row.id)
  {
    if events != [] {
      var init, e := events[..|events| - 1], events[|events| - 1];
      StepIdsAre(Run(init), e, row);
      if r :| r in Run(init) && r.id == row.id {
        IdsWereIssued(init, r);
        var i :| 0 <= i < |init| && init[i].Subscribe? && init[i].req.newId == row.id;
        assert events[i] == init[i];
      } else {
        assert events[|events| - 1].req.newId == row.id;
      }
    }
  }

  /**
    In every run, with any writes lost or wrongly reported, an account has at most one row per device
    and provider.
  */
  lemma {:induction false} RunKeepsOnePerDevice(events: seq<Event>)
    requires FreshIds(events)
    ensures OnePerDevice(Run(events)) && DistinctSubs(Run(events))
  {
    if events != [] {
      var init, e := events[..|events| - 1], events[|events| - 1];
      RunKeepsOnePerDevice(init);
      match e {
        case Delete(v, w) =>
          SparedIs(Run(init), v);
        case Subscribe(req, f) =>
          forall row | row in Run(init)
            ensures row.id != req.newId
          {
            IdsWereIssued(init, row);
            var i :| 0 <= i < |init| && init[i].Subscribe? && init[i].req.newId == row.id;
            assert events[i].req.newId == row.id;
          }
          SubscribedKeepsKeyed(Run(init), req, f);
      }
    }
  }

  // ---------------------------------------------------------------- what a request does, row by row

  function Touched(row: Subscription, req: Request, f: Faults): Subscription {
    if !IsFor(row, req.account, req.device, req.provider) then row
    else if Lands(req, f) then Updated(row, req)
    else if req.appKnown && req.active && f.deactivate != Lost then row.(active := false)
    else row
  }

  function Touches(rows: seq<Subscription>, req: Request, f: Faults): (r: seq<Subscription>)
    ensures |r| == |rows|
  {
    seq(|rows|, i requires 0 <= i < |rows| => Touched(rows[i], req, f))
  }

  ghost predicate HasRowFor(rows: seq<Subscription>, req: Request) {
    exists row :: row in rows && IsFor(row, req.account, req.device, req.provider)
  }

  lemma SavedIs(rows: seq<Subscription>, req: Request)
    requires Keyed(rows)
    ensures HasRowFor(rows, req) ==>
              |Saved(rows, req)| == |rows|
              && forall i :: 0 <= i < |rows| ==>
                   Saved(rows, req)[i]
                   == if IsFor(rows[i], req.account, req.device, req.provider) then Updated(rows[i], req) else rows[i]
    ensures !HasRowFor(rows, req) ==> Saved(rows, req) == rows + [NewRow(req)]
  {
    FirstIs(rows, ForDevice(req.account, req.device, req.provider));
  }

  /**
    A request changes the one row of its account, device and provider: it rewrites it if it gets that
    far, switches it off if it fails after the deactivation, and adds a row only where there is none.
  */
  lemma SubscribedIs(rows: seq<Subscription>, req: Request, f: Faults)
    requires Keyed(rows)
    ensures Subscribed(rows, req, f)
            == Touches(rows, req, f) + if Lands(req, f) && !HasRowFor(rows, req) then [NewRow(req)] else []
  {
    var quiet := Quieted(rows, req, f);
    SameKeysKeepKeyed(rows, quiet);
    QuietedHas(rows, req, f);
    if Lands(req, f) {
      SavedIs(quiet, req);
      forall i | 0 <= i < |rows|
        ensures Saved(quiet, req)[i] == Touched(rows[i], req, f)
      {
      }
      if HasRowFor(rows, req) {
        assert Saved(quiet, req) == Touches(rows, req, f);
      } else {
        assert quiet == Touches(rows, req, f);
      }
    } else {
      assert quiet == Touches(rows, req, f);
    }
  }

  lemma QuietedHas(rows: seq<Subscription>, req: Request, f: Faults)
    ensures HasRowFor(rows, req) <==> HasRowFor(Quieted(rows, req, f), req)
  {
    var quiet := Quieted(rows, req, f);
    if row :| row in rows && IsFor(row, req.account, req.device, req.provider) {
      var i :| 0 <= i < |rows| && rows[i] == row;
      assert quiet[i] in quiet;
    }
    if row :| row in quiet && IsFor(row, req.account, req.device, req.provider) {
      var i :| 0 <= i < |quiet| && quiet[i] == row;
      assert rows[i] in rows;
    }
  }

  lemma SubscribedHas(rows: seq<Subscription>, req: Request, f: Faults, row: Subscription)
    requires Keyed(rows)
    ensures row in Subscribed(rows, req, f)
            <==> (exists r :: r in rows && Touched(r, req, f) == row)
                 || (Lands(req, f) && !HasRowFor(rows, req) && row == NewRow(req))
  {
    SubscribedIs(rows, req, f);
    var touches := Touches(rows, req, f);
    if row in touches {
      var i :| 0 <= i < |touches| && touches[i] == row;
      assert rows[i] in rows;
    }
    if r :| r in rows && Touched(r, req, f) == row {
      var i :| 0 <= i < |rows| && rows[i] == r;
      assert touches[i] == row;
    }
  }

  ghost predicate Concerns(req: Request, row: Subscription) {
    row.accountId == req.account && row.deviceId == req.device && row.provider == req.provider
  }

  /** What a request makes of a row of its account, device and provider. */
  ghost predicate Renewed(before: Subscription, after: Subscription, req: Request, stored: bool, quieted: bool) {
    && after.id == before.id && after.createdAt == before.createdAt && Concerns(req, after)
    && if stored then
         after.token == req.token && after.active == req.active && after.appId == Some(req.appId)
       else
         after.token == before.token && after.active == (before.active && !quieted) && after.appId == before.appId
  }

  /** The request is stored: its app is known and no step up to its own write fails. */
  ghost predicate IsStored(req: Request, f: Faults) {
    req.appKnown && (req.active ==> f.deactivate == Stored) && f.readable && f.save != Lost
  }

  /** It has switched the rows of its device off first. */
  ghost predicate IsQuieted(req: Request, f: Faults) {
    req.appKnown && req.active && f.deactivate != Lost
  }

  ghost predicate Known(rows: seq<Subscription>, req: Request) {
    exists row :: row in rows && Concerns(req, row)
  }

  lemma TouchedIs(row: Subscription, req: Request, f: Faults)
    ensures if Concerns(req, row) then Renewed(row, Touched(row, req, f), req, IsStored(req, f), IsQuieted(req, f))
            else Touched(row, req, f) == row
  {
  }

  /**
    A request in the words of the table.  If it is stored, the row it concerns carries its token,
    state and app, or a new row does.  An activating request that gets no further than its
    deactivation leaves the row switched off.  Rows of other accounts, devices and providers stay.
  */
  lemma SubscribeEffect(rows: seq<Subscription>, req: Request, f: Faults)
    requires Keyed(rows)
    ensures var after := Subscribed(rows, req, f);
            && |after| == |rows| + (if IsStored(req, f) && !Known(rows, req) then 1 else 0)
            && (forall i :: 0 <= i < |rows| ==>
                  if Concerns(req, rows[i]) then Renewed(rows[i], after[i], req, IsStored(req, f), IsQuieted(req, f))
                  else after[i] == rows[i])
            && (IsStored(req, f) && !Known(rows, req) ==>
                  after[|rows|] == Subscription(req.newId, req.account, req.device, req.provider, req.token,
                                                req.active, Some(req.appId), req.now))
  {
    SubscribedIs(rows, req, f);
    assert HasRowFor(rows, req) <==> Known(rows, req);
    forall i | 0 <= i < |rows|
      ensures Subscribed(rows, req, f)[i] == Touched(rows[i], req, f)
      ensures if Concerns(req, rows[i])
              then Renewed(rows[i], Touched(rows[i], req, f), req, IsStored(req, f), IsQuieted(req, f))
              else Touched(rows[i], req, f) == rows[i]
    {
      TouchedIs(rows[i], req, f);
    }
  }

  /** The caller hears of a success exactly when nothing failed, the count for a first row included. */
  lemma SuccessIff(rows: seq<Subscription>, req: Request, f: Faults)
    ensures Reply(rows, req, f).Some?
            <==> IsStored(req, f) && f.save == Stored && (Known(rows, req) || f.countable)
  {
    QuietedHas(rows, req, f);
    FirstIs(Quieted(rows, req, f), ForDevice(req.account, req.device, req.provider));
    assert HasRowFor(rows, req) <==> Known(rows, req);
  }

  /** The caller is told of the row that carries the request, as it is stored. */
  lemma ReplyShowsTheRow(rows: seq<Subscription>, req: Request, f: Faults)
    requires Reply(rows, req, f).Some?
    ensures var row := Reply(rows, req, f).value;
            && row in Subscribed(rows, req, f) && Concerns(req, row)
            && row.token == req.token && row.active == req.active && row.appId == Some(req.appId)
  {
    ReplyIsStored(rows, req, f);
  }

  // ---------------------------------------------------------------- SOP tokens

  ghost predicate IsSopFor(e: Event, account: nat, device: string) {
    e.Subscribe? && e.req.provider == Sop && e.req.account == account && e.req.device == device
  }

  /** The token the last landed SOP request of this account and device carried. */
  ghost function LastStored(events: seq<Event>, account: nat, device: string): Option<string> {
    if events == [] then None
    else
      var e := events[|events| - 1];
      if IsSopFor(e, account, device) && Lands(e.req, e.faults) then Some(e.req.token)
      else LastStored(events[..|events| - 1], account, device)
  }

  lemma {:induction false} LastStoredIs(events: seq<Event>, account: nat, device: string)
    ensures LastStored(events, account, device) == None
            <==> forall i :: 0 <= i < |events| && IsSopFor(events[i], account, device) ==>
                   !Lands(events[i].req, events[i].faults)
    ensures LastStored(events, account, device).Some? ==>
              exists k :: 0 <= k < |events| && IsLatest(events, k, account, device)
                          && events[k].req.token == LastStored(events, account, device).value
  {
    if events != [] {
      var n := |events| - 1;
      var init, e := events[..n], events[n];
      LastStoredIs(init, account, device);
      if IsSopFor(e, account, device) && Lands(e.req, e.faults) {
        assert IsLatest(events, n, account, device);
      } else if LastStored(init, account, device).Some? {
        var k :| 0 <= k < |init| && IsLatest(init, k, account, device)
                 && init[k].req.token == LastStored(init, account, device).value;
        assert IsLatest(events, k, account, device) && events[k] == init[k];
      }
    }
  }

  ghost predicate IsLatest(events: seq<Event>, k: nat, account: nat, device: string) {
    && k < |events| && IsSopFor(events[k], account, device) && Lands(events[k].req, events[k].faults)
    && forall j :: k < j < |events| && IsSopFor(events[j], account, device) ==>
         !Lands(events[j].req, events[j].faults)
  }

  /** SOP rows carry the token that was stored last for their account and device. */
  ghost predicate TokensAreCurrent(rows: seq<Subscription>, events: seq<Event>) {
    forall row :: row in rows && row.provider == Sop ==>
      LastStored(events, row.accountId, row.deviceId) == Some(row.token)
  }

  lemma SubscribedTokens(rows: seq<Subscription>, req: Request, f: Faults, row: Subscription)
    requires Keyed(rows) && row in Subscribed(rows, req, f)
    ensures IsFor(row, req.account, req.device, req.provider) && Lands(req, f) ==> row.token == req.token
    ensures !IsFor(row, req.account, req.device, req.provider) || !Lands(req, f) ==>
              exists r :: r in rows && r.token == row.token && IsFor(r, row.accountId, row.deviceId, row.provider)
  {
    SubscribedHas(rows, req, f, row);
  }

  lemma {:induction false} RunTokensAreCurrent(events: seq<Event>)
    requires FreshIds(events)
    ensures TokensAreCurrent(Run(events), events)
  {
    if events != [] {
      var init, e := events[..|events| - 1], events[|events| - 1];
      RunTokensAreCurrent(init);
      RunKeepsOnePerDevice(init);
      forall row | row in Run(events) && row.provider == Sop
        ensures LastStored(events, row.accountId, row.deviceId) == Some(row.token)
      {
        match e {
          case Delete(v, w) =>
            SparedIs(Run(init), v);
          case Subscribe(req, f) =>
            SubscribedTokens(Run(init), req, f, row);
        }
      }
    }
  }

  /** Only the token stored last for its account and device can be found. */
  lemma OnlyLastStoredResolves(events: seq<Event>, token: string)
    requires FreshIds(events)
    ensures match First(Run(events), WithSopToken(token))
            case Some(row) => row.token == token && LastStored(events, row.accountId, row.deviceId) == Some(token)
            case None => true
  {
    RunTokensAreCurrent(events);
    FirstIs(Run(events), WithSopToken(token));
  }

  ghost predicate FreshTokens(events: seq<Event>) {
    forall i, j :: 0 <= i < j < |events| && IsSop(events[i]) && IsSop(events[j]) ==>
      events[i].req.token != events[j].req.token
  }

  predicate IsSop(e: Event) {
    e.Subscribe? && e.req.provider == Sop
  }

  /** Once a later token of the same account and device is stored, an earlier one finds nothing. */
  lemma RotatedTokenIsDead(events: seq<Event>, i: nat, j: nat)
    requires FreshIds(events) && FreshTokens(events)
    requires i < j < |events| && IsSop(events[i])
    requires IsSopFor(events[j], events[i].req.account, events[i].req.device)
    requires Lands(events[j].req, events[j].faults)
    ensures First(Run(events), WithSopToken(events[i].req.token)) == None
  {
    OnlyLastStoredResolves(events, events[i].req.token);
    var found := First(Run(events), WithSopToken(events[i].req.token));
    if found.Some? {
      LatestIsTheFreshOne(events, i, found.value.accountId, found.value.deviceId);
    }
  }

  lemma LatestIsTheFreshOne(events: seq<Event>, i: nat, account: nat, device: string)
    requires FreshTokens(events) && i < |events| && IsSop(events[i])
    requires LastStored(events, account, device) == Some(events[i].req.token)
    ensures IsLatest(events, i, account, device)
  {
    LastStoredIs(events, account, device);
    var k :| 0 <= k < |events| && IsLatest(events, k, account, device)
             && events[k].req.token == events[i].req.token;
    assert IsSop(events[k]);
  }

  /** No two rows carry the same SOP token. */
  ghost predicate TokensDiffer(rows: seq<Subscription>) {
    forall a, b :: a in rows && b in rows && a.provider == Sop && b.provider == Sop && a.token == b.token ==> a == b
  }

  lemma RunTokensDiffer(events: seq<Event>)
    requires FreshIds(events) && FreshTokens(events)
    ensures TokensDiffer(Run(events))
  {
    RunTokensAreCurrent(events);
    RunKeepsOnePerDevice(events);
    forall a, b | a in Run(events) && b in Run(events) && a.provider == Sop && b.provider == Sop && a.token == b.token
      ensures a == b
    {
      LastStoredIs(events, a.accountId, a.deviceId);
      LastStoredIs(events, b.accountId, b.deviceId);
      assert IsFor(b, a.accountId, a.deviceId, a.provider);
    }
  }

  /** What makes a token that can be found stop being found. */
  predicate Kills(e: Event, row: Subscription) {
    match e
    case Delete(v, w) => w != Lost && Doomed(row, v)
    case Subscribe(req, f) =>
      && IsFor(row, req.account, req.device, Sop) && req.provider == Sop
      && (Lands(req, f) || (req.appKnown && req.active && f.deactivate != Lost))
  }

  /**
    A token that resolves keeps resolving, to the same account and device, until exactly one of these
    happens: its row is deleted, a request for its device stores another token, or such a request
    deactivates the row and then fails.
  */
  lemma TokenSurvivesIff(rows: seq<Subscription>, e: Event, token: string)
    requires Keyed(rows) && TokensDiffer(rows) && First(rows, WithSopToken(token)).Some?
    requires IsSop(e) ==> e.req.token != token
    requires e.Subscribe? ==> forall row :: row in rows ==> row.id != e.req.newId
    ensures var row := First(rows, WithSopToken(token)).value;
            First(Step(rows, e), WithSopToken(token)) == if Kills(e, row) then None else Some(row)
  {
    var q := WithSopToken(token);
    FirstIs(rows, q);
    var row := First(rows, q).value;
    match e {
      case Delete(v, w) =>
        SparedIs(rows, v);
      case Subscribe(req, f) =>
        SubscribedHas(rows, req, f, row);
        forall r | r in Subscribed(rows, req, f) && Answers(r, q)
          ensures r == row && !Kills(e, row)
        {
          SubscribedHas(rows, req, f, r);
        }
    }
    OnlyAnswer(Step(rows, e), q, row, !Kills(e, row));
  }

  lemma OnlyAnswer(rows: seq<Subscription>, q: Query, row: Subscription, present: bool)
    requires forall r :: r in rows && Answers(r, q) ==> present && r == row
    requires present ==> row in rows && Answers(row, q)
    ensures First(rows, q) == if present then Some(row) else None
  {
    FirstIs(rows, q);
  }

  /** A registration that reports success has stored its token, active, for its device. */
  lemma RegisteredTokenResolves(events: seq<Event>, req: Request, f: Faults)
    requires FreshIds(events + [Subscribe(req, f)]) && FreshTokens(events + [Subscribe(req, f)])
    requires req.provider == Sop && req.active && Reply(Run(events), req, f).Some?
    ensures First(Run(events + [Subscribe(req, f)]), WithSopToken(req.token)) == Reply(Run(events), req, f)
    ensures Reply(Run(events), req, f).value.accountId == req.account
    ensures Reply(Run(events), req, f).value.deviceId == req.device
  {
    var all := events + [Subscribe(req, f)];
    var row := Reply(Run(events), req, f).value;
    assert all[..|events|] == events;
    RunTokensDiffer(all);
    ReplyIsStored(Run(events), req, f);
    OnlyAnswer(Run(all), WithSopToken(req.token), row, true);
  }

  lemma ReplyIsStored(rows: seq<Subscription>, req: Request, f: Faults)
    requires Reply(rows, req, f).Some?
    ensures Reply(rows, req, f).value in Subscribed(rows, req, f)
    ensures var row := Reply(rows, req, f).value;
            IsFor(row, req.account, req.device, req.provider) && row.token == req.token && row.active == req.active
  {
    var quiet := Quieted(rows, req, f);
    FirstIs(quiet, ForDevice(req.account, req.device, req.provider));
    match Found(quiet, req) {
      case Some(row) =>
        var i :| 0 <= i < |quiet| && quiet[i] == row;
        assert Saved(quiet, req)[i] == Updated(row, req);
      case None =>
        assert Saved(quiet, req)[|quiet|] == NewRow(req);
    }
  }

  lemma DeadStaysDead(rows: seq<Subscription>, e: Event, token: string)
    requires Keyed(rows) && First(rows, WithSopToken(token)) == None
    requires IsSop(e) ==> e.req.token != token
    ensures First(Step(rows, e), WithSopToken(token)) == None
  {
    var q := WithSopToken(token);
    FirstIs(rows, q);
    FirstIs(Step(rows, e), q);
    forall row | row in Step(rows, e)
      ensures !Answers(row, q)
    {
      match e {
        case Delete(v, w) =>
          SparedIs(rows, v);
        case Subscribe(req, f) =>
          SubscribedHas(rows, req, f, row);
      }
    }
  }

  /** One more event of a run. */
  lemma OneMoreEvent(events: seq<Event>, e: Event, token: string)
    requires FreshIds(events + [e]) && FreshTokens(events + [e])
    requires IsSop(e) ==> e.req.token != token
    ensures First(Run(events + [e]), WithSopToken(token))
            == match First(Run(events), WithSopToken(token))
               case Some(row) => if Kills(e, row) then None else Some(row)
               case None => None
  {
    assert (events + [e])[..|events|] == events;
    PrefixIsFresh(events, [e]);
    RunKeepsOnePerDevice(events);
    RunTokensDiffer(events);
    NewIdIsUnused(events, e);
    if First(Run(events), WithSopToken(token)).None? {
      DeadStaysDead(Run(events), e, token);
    } else {
      TokenSurvivesIff(Run(events), e, token);
    }
  }

  predicate KilledIn(more: seq<Event>, row: Subscription) {
    exists i :: 0 <= i < |more| && Kills(more[i], row)
  }

  lemma KilledInOneMore(more: seq<Event>, row: Subscription)
    requires more != []
    ensures KilledIn(more, row) <==> KilledIn(more[..|more| - 1], row) || Kills(more[|more| - 1], row)
  {
    var n := |more| - 1;
    if i :| 0 <= i < n && Kills(more[..n][i], row) {
      assert Kills(more[i], row);
    }
    if i :| 0 <= i < |more| && Kills(more[i], row) {
      assert i < n ==> Kills(more[..n][i], row);
    }
  }

  /** Over a whole run: a token goes on resolving exactly until the first event that kills it. */
  lemma {:induction false} TokenResolvesUntilKilled(events: seq<Event>, more: seq<Event>, token: string)
    requires FreshIds(events + more) && FreshTokens(events + more)
    requires forall i :: 0 <= i < |more| && IsSop(more[i]) ==> more[i].req.token != token
    requires First(Run(events), WithSopToken(token)).Some?
    ensures var row := First(Run(events), WithSopToken(token)).value;
            First(Run(events + more), WithSopToken(token)) == if KilledIn(more, row) then None else Some(row)
  {
    if more == [] {
      assert events + more == events;
    } else {
      var init, e := more[..|more| - 1], more[|more| - 1];
      assert events + more == (events + init) + [e];
      PrefixIsFresh(events + init, [e]);
      TokenResolvesUntilKilled(events, init, token);
      OneMoreEvent(events + init, e, token);
      KilledInOneMore(more, First(Run(events), WithSopToken(token)).value);
    }
  }

  lemma PrefixIsFresh(events: seq<Event>, more: seq<Event>)
    ensures FreshIds(events + more) ==> FreshIds(events)
    ensures FreshTokens(events + more) ==> FreshTokens(events)
  {
    var all := events + more;
    assert forall i :: 0 <= i < |events| ==> all[i] == events[i];
  }

  lemma NewIdIsUnused(events: seq<Event>, e: Event)
    requires FreshIds(events + [e])
    ensures e.Subscribe? ==> forall row :: row in Run(events) ==> row.id != e.req.newId
  {
    var all := events + [e];
    forall row | row in Run(events) && e.Subscribe?
      ensures row.id != e.req.newId
    {
      IdsWereIssued(events, row);
      var i :| 0 <= i < |events| && events[i].Subscribe? && events[i].req.newId == row.id;
      assert all[i] == events[i] && all[|events|] == e;
    }
  }

  // ---------------------------------------------------------------- reports of rejected tokens

  predicate Renews(e: Event, row: Subscription) {
    e.Subscribe? && IsFor(row, e.req.account, e.req.device, e.req.provider) && Lands(e.req, e.faults)
  }

  /** The token of the last request that rewrote the row, or the one the row had. */
  function CurrentToken(row: Subscription, more: seq<Event>): string {
    if more == [] then row.token
    else if Renews(more[|more| - 1], row) then more[|more| - 1].req.token
    else CurrentToken(row, more[..|more| - 1])
  }

  lemma SameKeyAfter(rows: seq<Subscription>, e: Event, r2: Subscription) returns (r: Subscription)
    requires Keyed(rows) && r2 in Step(rows, e) && (e.Subscribe? ==> r2.id != e.req.newId)
    ensures r in rows && r.id == r2.id && IsFor(r, r2.accountId, r2.deviceId, r2.provider)
    ensures r2.token == if Renews(e, r) then e.req.token else r.token
  {
    match e {
      case Delete(v, w) =>
        SparedIs(rows, v);
        r := r2;
      case Subscribe(req, f) =>
        SubscribedHas(rows, req, f, r2);
        r :| r in rows && Touched(r, req, f) == r2;
    }
  }

  /** While a row exists it keeps its key, and carries the token of the last request that landed. */
  lemma {:induction false} RowCarriesCurrentToken(events: seq<Event>, more: seq<Event>, row: Subscription,
                                                  r2: Subscription)
    requires FreshIds(events + more)
    requires row in Run(events) && r2 in Run(events + more) && r2.id == row.id
    ensures IsFor(r2, row.accountId, row.deviceId, row.provider)
    ensures r2.token == CurrentToken(row, more)
  {
    PrefixIsFresh(events, more);
    if more == [] {
      assert events + more == events;
      RunKeepsOnePerDevice(events);
    } else {
      var init, e := more[..|more| - 1], more[|more| - 1];
      assert events + more == (events + init) + [e];
      PrefixIsFresh(events + init, [e]);
      RunKeepsOnePerDevice(events + init);
      assert ((events + init) + [e])[..|events + init|] == events + init;
      IssuedIsNotNew(events, more, row);
      var r := SameKeyAfter(Run(events + init), e, r2);
      RowCarriesCurrentToken(events, init, row, r);
    }
  }

  lemma IssuedIsNotNew(events: seq<Event>, more: seq<Event>, row: Subscription)
    requires FreshIds(events + more) && more != [] && row in Run(events)
    ensures more[|more| - 1].Subscribe? ==> row.id != more[|more| - 1].req.newId
  {
    var all := events + more;
    IdsWereIssued(events, row);
    var i :| 0 <= i < |events| && events[i].Subscribe? && events[i].req.newId == row.id;
    assert all[i] == events[i] && all[|all| - 1] == more[|more| - 1];
  }

  predicate LastRenewal(more: seq<Event>, row: Subscription, k: nat) {
    k < |more| && Renews(more[k], row) && forall j :: k < j < |more| ==> !Renews(more[j], row)
  }

  lemma {:induction false} LastRenewalDecides(row: Subscription, more: seq<Event>)
    ensures forall k: nat :: LastRenewal(more, row, k) ==> CurrentToken(row, more) == more[k].req.token
    ensures (forall k: nat :: !LastRenewal(more, row, k)) ==> CurrentToken(row, more) == row.token
  {
    if more == [] {
      assert CurrentToken(row, more) == row.token;
    } else {
      var last := |more| - 1;
      LastRenewalDecides(row, more[..last]);
      if Renews(more[last], row) {
        assert LastRenewal(more, row, last);
      } else {
        assert forall k: nat :: LastRenewal(more, row, k) <==> LastRenewal(more[..last], row, k);
      }
    }
  }

  /**
    A report names a row, not a token.  If it was made when the table held `row`, the row a flush
    deletes for it carries the rejected token if and only if the last request for that account,
    device and provider that has landed since, if there was one, brought that very token.
  */
  lemma ReportHitsRejectedTokenIff(events: seq<Event>, more: seq<Event>, row: Subscription, r2: Subscription,
                                   ids: set<nat>)
    requires FreshIds(events + more) && row in Run(events) && row.id in ids
    requires r2 in Run(events + more) && r2.id == row.id
    ensures r2 !in Step(Run(events + more), Delete(WithIds(ids), Stored))
    ensures r2.token == row.token
            <==> forall k: nat :: LastRenewal(more, row, k) ==> more[k].req.token == row.token
  {
    RowCarriesCurrentToken(events, more, row, r2);
    LastRenewalDecides(row, more);
    SparedIs(Run(events + more), WithIds(ids));
  }

  /** A run in which a subscription that was renewed in time is deleted for its old token. */
  lemma RenewedSubscriptionIsDeleted() returns (events: seq<Event>, renewal: Event, row: Subscription)
    ensures FreshIds(events + [renewal]) && row in Run(events) && Renews(renewal, row)
    ensures Run(events + [renewal]) == [row.(token := "new")] && row.token == "old"
    ensures Step(Run(events + [renewal]), Delete(WithIds({row.id}), Stored)) == []
  {
    var first := Request(1, "d", Google, "old", true, "app", true, 1, 0);
    var second := first.(token := "new", newId := 2);
    var f := Faults(Stored, true, Stored, true);
    events, renewal, row := [Subscribe(first, f)], Subscribe(second, f), NewRow(first);
    var next := row.(token := "new");
    assert events[..0] == [] && (events + [renewal])[..1] == events;
    OneRowInserted(first, f);
    OneRowRenewed(row, second, f);
    assert [next][..0] == [];
    assert Spared([next], WithIds({row.id})) == Spared([], WithIds({row.id})) + [];
  }

  lemma OneRowInserted(req: Request, f: Faults)
    requires Lands(req, f)
    ensures Subscribed([], req, f) == [NewRow(req)]
  {
  }

  lemma OneRowRenewed(row: Subscription, req: Request, f: Faults)
    requires Lands(req, f) && IsFor(row, req.account, req.device, req.provider)
    ensures Subscribed([row], req, f) == [Updated(row, req)]
  {
    SubscribedIs([row], req, f);
    assert row in [row];
    assert Touches([row], req, f) == [Updated(row, req)];
  }

  // ---------------------------------------------------------------- the subscriptions to push to

  predicate IsActivated(row: Subscription, account: nat, resolved: string, defaultApp: string) {
    row.accountId == account && row.active && MatchesApp(row.appId, resolved, defaultApp)
  }

  function Activated(rows: seq<Subscription>, account: nat, resolved: string, defaultApp: string): seq<Subscription> {
    if rows == [] then []
    else
      var last := rows[|rows| - 1];
      Activated(rows[..|rows| - 1], account, resolved, defaultApp)
      + if IsActivated(last, account, resolved, defaultApp) then [last] else []
  }

  lemma {:induction false} ActivatedIs(rows: seq<Subscription>, account: nat, resolved: string, defaultApp: string)
    ensures forall row :: row in Activated(rows, account, resolved, defaultApp) <==>
              && row in rows && row.accountId == account && row.active
              && (resolved == "" || row.appId == Some(resolved)
                  || (resolved == defaultApp && row.appId in {None, Some("")}))
    ensures DistinctSubs(rows) ==> DistinctSubs(Activated(rows, account, resolved, defaultApp))
  {
    if rows != [] {
      var init, last := rows[..|rows| - 1], rows[|rows| - 1];
      ActivatedIs(init, account, resolved, defaultApp);
      assert rows == init + [last];
      var kept := Activated(init, account, resolved, defaultApp);
      forall i | 0 <= i < |kept|
        ensures DistinctSubs(rows) ==> kept[i].id != last.id
      {
        assert kept[i] in init;
      }
    }
  }

  // ---------------------------------------------------------------- the table

  class SubscriptionTable {
    var rows: seq<Subscription>

    constructor ()
      ensures rows == []
    {
      rows := [];
    }

    method DeactivateSubscriptions(account: nat, device: string, provider: Provider, w: Write) returns (ok: bool)
      modifies this
      ensures ok == (w == Stored)
      ensures rows == if w == Lost then old(rows) else Deactivated(old(rows), account, device, provider)
    {
      ok := w == Stored;
      if w == Lost {
        return;
      }
      ghost var was := rows;
      for i := 0 to |rows|
        invariant |rows| == |was|
        invariant forall j :: 0 <= j < |rows| ==>
                    rows[j] == if j < i then Deactivated(was, account, device, provider)[j] else was[j]
      {
        if IsFor(rows[i], account, device, provider) && rows[i].active {
          rows := rows[i := rows[i].(active := false)];
        }
      }
    }

    /** The single-row queries. */
    method Find(q: Query) returns (found: Option<Subscription>)
      ensures found == First(rows, q)
    {
      found := None;
      for i := 0 to |rows|
        invariant found == First(rows[..i], q)
      {
        assert rows[..i + 1][..i] == rows[..i];
        if Answers(rows[i], q) && (found.None? || Before(rows[i], found.value)) {
          found := Some(rows[i]);
        }
      }
      assert rows[..|rows|] == rows;
    }

    method UpdateSubscription(r: Subscription, w: Write) returns (ok: bool)
      modifies this
      ensures ok == (w == Stored)
      ensures rows == if w == Lost then old(rows) else Rewritten(old(rows), r)
    {
      ok := w == Stored;
      if w == Lost {
        return;
      }
      ghost var was := rows;
      for i := 0 to |rows|
        invariant |rows| == |was|
        invariant forall j :: 0 <= j < |rows| ==> rows[j] == if j < i then Rewritten(was, r)[j] else was[j]
      {
        if rows[i].id == r.id {
          rows := rows[i := r];
        }
      }
    }

    method InsertSubscription(r: Subscription, w: Write) returns (ok: bool)
      modifies this
      ensures ok == (w == Stored)
      ensures rows == if w == Lost then old(rows) else old(rows) + [r]
    {
      if w != Lost {
        rows := rows + [r];
      }
      ok := w == Stored;
    }

    /** Deletion by device, by a list of ids, or by owner and id. */
    method DeleteSubscriptions(v: Victims, w: Write) returns (ok: bool, affected: nat)
      modifies this
      ensures ok == (w == Stored)
      ensures rows == if w == Lost then old(rows) else Spared(old(rows), v)
      ensures w != Lost && v.OfDevice? ==> forall row :: row in rows <==> row in old(rows) && row.deviceId != v.device
      ensures w != Lost && v.WithIds? ==> forall row :: row in rows <==> row in old(rows) && row.id !in v.ids
      ensures w != Lost && v.OneOf? ==>
                forall row :: row in rows <==> row in old(rows) && !(row.accountId == v.account && row.id == v.id)
      ensures affected == |old(rows)| - |rows|
    {
      ok, affected := w == Stored, 0;
      if w == Lost {
        return;
      }
      var kept: seq<Subscription> := [];
      for i := 0 to |rows|
        invariant kept == Spared(rows[..i], v) && affected == i - |kept|
      {
        assert rows[..i + 1][..i] == rows[..i];
        if Doomed(rows[i], v) {
          affected := affected + 1;
        } else {
          kept := kept + [rows[i]];
        }
      }
      assert rows[..|rows|] == rows;
      SparedByCase(rows, v);
      rows := kept;
    }

    method ListActivatedSubscriptions(account: nat, resolved: string, defaultApp: string)
      returns (found: seq<Subscription>)
      ensures found == Activated(rows, account, resolved, defaultApp)
    {
      found := [];
      for i := 0 to |rows|
        invariant found == Activated(rows[..i], account, resolved, defaultApp)
      {
        assert rows[..i + 1][..i] == rows[..i];
        if IsActivated(rows[i], account, resolved, defaultApp) {
          found := found + [rows[i]];
        }
      }
      assert rows[..|rows|] == rows;
    }
  }

  class SubscriptionService {
    const table: SubscriptionTable

    constructor (table: SubscriptionTable)
      ensures this.table == table
    {
      this.table := table;
    }

    method SubscribeDevice(req: Request, f: Faults) returns (reply: Option<Subscription>)
      modifies table
      ensures table.rows == Subscribed(old(table.rows), req, f)
      ensures reply == Reply(old(table.rows), req, f)
    {
      if !req.appKnown {
        return None;
      }
      var ok;
      if req.active {
        ok := table.DeactivateSubscriptions(req.account, req.device, req.provider, f.deactivate);
        if !ok {
          return None;
        }
      }
      if !f.readable {
        return None;
      }
      var existing := table.Find(ForDevice(req.account, req.device, req.provider));
      if existing.Some? {
        var row := existing.value.(
          deviceId := req.device,
          token := req.token,
          provider := req.provider,
          active := req.active,
          appId := Some(req.appId));
        ok := table.UpdateSubscription(row, f.save);
        return if ok then Some(row) else None;
      }
      var row := Subscription(req.newId, req.account, req.device, req.provider, req.token, req.active,
                              Some(req.appId), req.now);
      ok := table.InsertSubscription(row, f.save);
      if !ok || !f.countable {
        return None;
      }
      return Some(row);
    }

    /** Registers a fresh token; the caller learns it only if nothing failed. */
    method RegisterSopToken(req: Request, f: Faults) returns (reply: Option<(string, Subscription)>)
      requires req.provider == Sop && req.active
      modifies table
      ensures table.rows == Step(old(table.rows), Subscribe(req, f))
      ensures reply == match Reply(old(table.rows), req, f)
                       case Some(row) => Some((req.token, row))
                       case None => None
    {
      var row := SubscribeDevice(req, f);
      reply := if row.Some? then Some((req.token, row.value)) else None;
    }

    method UnsubscribeDevice(device: string, w: Write) returns (ok: bool)
      modifies table
      ensures table.rows == Step(old(table.rows), Delete(OfDevice(device), w)) && ok == (w == Stored)
      ensures w == Lost ==> table.rows == old(table.rows)
      ensures w != Lost ==>
                forall row :: row in table.rows <==> row in old(table.rows) && row.deviceId != device
    {
      var affected;
      ok, affected := table.DeleteSubscriptions(OfDevice(device), w);
    }

    method GetSopSubscriptionByToken(token: string) returns (found: Option<Subscription>)
      ensures found == First(table.rows, WithSopToken(token))
      ensures found == None <==>
                forall row :: row in table.rows ==> !(row.provider == Sop && row.token == token && row.active)
      ensures found.Some? ==>
                && found.value in table.rows && found.value.provider == Sop
                && found.value.token == token && found.value.active
    {
      FirstIs(table.rows, WithSopToken(token));
      found := table.Find(WithSopToken(token));
    }
  }
}
