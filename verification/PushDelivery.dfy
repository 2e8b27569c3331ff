/**
  Delivery of one notification: which subscription of each device is chosen, and which delivery
  records the fan-out leaves behind.
*/
module PushDelivery {
  import opened Basics
  import opened Devices

  // ---------------------------------------------------------------- VoIP

  function Lower(c: char): char {
    if 'A' <= c <= 'Z' then c + 32 as char else c
  }

  predicate EqualFold(s: string, t: string) {
    |s| == |t| && forall i :: 0 <= i < |s| ==> Lower(s[i]) == Lower(t[i])
  }

  predicate IsVoipPush(pushType: Option<string>) {
    pushType.Some? && EqualFold(pushType.value, "VoIP")
  }

  /** The four letters, in either case. */
  lemma VoipIs(pushType: Option<string>)
    ensures IsVoipPush(pushType) <==>
              && pushType.Some? && |pushType.value| == 4
              && pushType.value[0] in {'v', 'V'} && pushType.value[1] in {'o', 'O'}
              && pushType.value[2] in {'i', 'I'} && pushType.value[3] in {'p', 'P'}
  {
    if pushType.Some? && |pushType.value| == 4 {
      VoipLetter(pushType.value[0], "VoIP"[0], 'v', 'V');
      VoipLetter(pushType.value[1], "VoIP"[1], 'o', 'O');
      VoipLetter(pushType.value[2], "VoIP"[2], 'i', 'I');
      VoipLetter(pushType.value[3], "VoIP"[3], 'p', 'P');
    }
  }

  lemma VoipLetter(c: char, letter: char, small: char, large: char)
    requires 'A' <= large <= 'Z' && small == large + 32 as char && letter in {small, large}
    ensures Lower(c) == Lower(letter) <==> c in {small, large}
  {
  }

  // ---------------------------------------------------------------- selection

  predicate Compatible(provider: Provider, voip: bool, hasAnyAppk: bool) {
    if !voip then provider != Appk else !(hasAnyAppk && provider == Apple)
  }

  function Priority(sub: Subscription, connectedSop: set<string>, voip: bool): nat {
    match sub.provider
    case Sop => if NormalizeSopDeviceId(sub.deviceId) in connectedSop then 5 else 0
    case Appk => if voip then 4 else 0
    case Google => 2
    case UnifiedPush => 1
    case Apple => if voip then 3 else 4
    case Unknown(_) => 0
  }

  ghost predicate HasAppk(subs: seq<Subscription>) {
    exists i :: 0 <= i < |subs| && subs[i].provider == Appk
  }

  /** What a selection is made under. */
  datatype Setting = Setting(connectedSop: set<string>, voip: bool, hasAnyAppk: bool)

  ghost function SettingFor(subs: seq<Subscription>, connectedSop: set<string>, pushType: Option<string>): Setting {
    Setting(connectedSop, IsVoipPush(pushType), IsVoipPush(pushType) && HasAppk(subs))
  }

  predicate Candidate(sub: Subscription, key: string, w: Setting) {
    NormalizeSopDeviceId(sub.deviceId) == key && Compatible(sub.provider, w.voip, w.hasAnyAppk)
  }

  /** Among the first n, number i is the first candidate of maximal priority for the device. */
  ghost predicate FirstBest(subs: seq<Subscription>, n: nat, i: nat, key: string, w: Setting)
    requires n <= |subs|
  {
    && i < n && Candidate(subs[i], key, w)
    && (forall j :: 0 <= j < n && Candidate(subs[j], key, w) ==>
          Priority(subs[j], w.connectedSop, w.voip) <= Priority(subs[i], w.connectedSop, w.voip))
    && (forall j :: 0 <= j < i && Candidate(subs[j], key, w) ==>
          Priority(subs[j], w.connectedSop, w.voip) < Priority(subs[i], w.connectedSop, w.voip))
  }

  ghost predicate IsFirstBest(subs: seq<Subscription>, w: Setting, key: string, sub: Subscription) {
    exists i :: 0 <= i < |subs| && subs[i] == sub && FirstBest(subs, |subs|, i, key, w)
  }

  /** The specification determines the choice. */
  lemma FirstBestIsUnique(subs: seq<Subscription>, i: nat, j: nat, key: string, w: Setting)
    requires FirstBest(subs, |subs|, i, key, w) && FirstBest(subs, |subs|, j, key, w)
    ensures i == j
  {
  }

  /**
    What may be passed over on a device for a subscription of this provider.  Ordinarily SOP with a
    live stream comes first, then Apple, Google, UnifiedPush and the rest, and Appk is never used;
    for VoIP the order is live SOP, Appk, Apple, Google, UnifiedPush and the rest, and Apple is not
    used once any subscription is Appk.
  */
  ghost predicate MayPassOver(chosen: Provider, other: Provider, live: bool, voip: bool, anyAppk: bool) {
    var usable := if voip then !(other == Apple && anyAppk) else other != Appk;
    match chosen
    case Sop => live || (usable ==> other == Sop || other.Unknown?)
    case Appk => voip && !(other == Sop && live)
    case Apple =>
      !(other == Sop && live) && if voip then !anyAppk && other != Appk else true
    case Google => usable ==> other in {Google, UnifiedPush} || other.Unknown? || (other == Sop && !live)
    case UnifiedPush => usable ==> other == UnifiedPush || other.Unknown? || (other == Sop && !live)
    case Unknown(_) => usable ==> other.Unknown? || (other == Sop && !live)
  }

  lemma FirstBestPassesOver(subs: seq<Subscription>, i: nat, j: nat, key: string, w: Setting)
    requires FirstBest(subs, |subs|, i, key, w) && j < |subs| && NormalizeSopDeviceId(subs[j].deviceId) == key
    ensures MayPassOver(subs[i].provider, subs[j].provider, key in w.connectedSop, w.voip, w.hasAnyAppk)
    ensures j < i ==> subs[j].provider != subs[i].provider
  {
    assert Candidate(subs[i], key, w);
    if Candidate(subs[j], key, w) {
      assert Priority(subs[j], w.connectedSop, w.voip) <= Priority(subs[i], w.connectedSop, w.voip);
    }
  }

  /** Each device with a compatible subscription is led to its first best one, and no other is. */
  ghost predicate SelectionOf(subs: seq<Subscription>, n: nat, w: Setting, at: map<string, nat>)
    requires n <= |subs|
  {
    && (forall key :: key in at ==> FirstBest(subs, n, at[key], key, w))
    && (forall j :: 0 <= j < n && Compatible(subs[j].provider, w.voip, w.hasAnyAppk) ==>
          NormalizeSopDeviceId(subs[j].deviceId) in at)
  }

  lemma SelectionGrows(subs: seq<Subscription>, n: nat, w: Setting, at: map<string, nat>, next: map<string, nat>)
    requires n < |subs| && SelectionOf(subs, n, w, at)
    requires var key := NormalizeSopDeviceId(subs[n].deviceId);
             next == if !Compatible(subs[n].provider, w.voip, w.hasAnyAppk) then at
                     else if key !in at || Priority(subs[n], w.connectedSop, w.voip)
                                           > Priority(subs[at[key]], w.connectedSop, w.voip)
                     then at[key := n] else at
    ensures SelectionOf(subs, n + 1, w, next)
  {
    forall key | key in next
      ensures FirstBest(subs, n + 1, next[key], key, w)
    {
      if key in at {
        assert FirstBest(subs, n, at[key], key, w);
      }
    }
  }

  /** `result` holds, device by device, the subscription that `at` points at. */
  ghost predicate Tracks(subs: seq<Subscription>, at: map<string, nat>, result: map<string, Subscription>) {
    result.Keys == at.Keys && forall key :: key in at ==> at[key] < |subs| && result[key] == subs[at[key]]
  }

  method SelectSubscriptionsByDevice(subs: seq<Subscription>, connectedSop: set<string>, pushType: Option<string>)
    returns (result: map<string, Subscription>, ghost at: map<string, nat>)
    ensures forall key :: key in result ==>
              IsFirstBest(subs, SettingFor(subs, connectedSop, pushType), key, result[key])
    ensures forall key, j :: key in result && 0 <= j < |subs| && NormalizeSopDeviceId(subs[j].deviceId) == key ==>
              MayPassOver(result[key].provider, subs[j].provider, key in connectedSop, IsVoipPush(pushType),
                          HasAppk(subs))
    ensures forall i :: 0 <= i < |subs| && NormalizeSopDeviceId(subs[i].deviceId) !in result ==>
              subs[i].provider == if IsVoipPush(pushType) then Apple else Appk
    ensures SelectionOf(subs, |subs|, SettingFor(subs, connectedSop, pushType), at)
    ensures Tracks(subs, at, result)
  {
    var voip := IsVoipPush(pushType);
    var hasAnyAppk := voip;
    if hasAnyAppk {
      hasAnyAppk := AnyAppk(subs);
    }
    ghost var w := SettingFor(subs, connectedSop, pushType);
    assert w == Setting(connectedSop, voip, hasAnyAppk);
    result, at := ChooseFirstBest(subs, connectedSop, voip, hasAnyAppk);
    forall key | key in result
      ensures IsFirstBest(subs, w, key, result[key])
    {
      assert FirstBest(subs, |subs|, at[key], key, w);
    }
    forall key, j | key in result && 0 <= j < |subs| && NormalizeSopDeviceId(subs[j].deviceId) == key
      ensures MayPassOver(result[key].provider, subs[j].provider, key in connectedSop, voip, HasAppk(subs))
    {
      FirstBestPassesOver(subs, at[key], j, key, w);
    }
  }

  method ChooseFirstBest(subs: seq<Subscription>, connectedSop: set<string>, voip: bool, hasAnyAppk: bool)
    returns (result: map<string, Subscription>, ghost at: map<string, nat>)
    ensures SelectionOf(subs, |subs|, Setting(connectedSop, voip, hasAnyAppk), at)
    ensures Tracks(subs, at, result)
  {
    result := map[];
    at := map[];
    ghost var w := Setting(connectedSop, voip, hasAnyAppk);
    for i := 0 to |subs|
      invariant SelectionOf(subs, i, w, at) && Tracks(subs, at, result)
    {
      result, at := Consider(subs, i, result, connectedSop, voip, hasAnyAppk, at);
    }
  }

  /** One round of the selection: a better subscription for its device replaces the current one. */
  method Consider(subs: seq<Subscription>, i: nat, chosen: map<string, Subscription>, connectedSop: set<string>,
                  voip: bool, hasAnyAppk: bool, ghost at: map<string, nat>)
    returns (result: map<string, Subscription>, ghost next: map<string, nat>)
    requires i < |subs|
    requires SelectionOf(subs, i, Setting(connectedSop, voip, hasAnyAppk), at) && Tracks(subs, at, chosen)
    ensures SelectionOf(subs, i + 1, Setting(connectedSop, voip, hasAnyAppk), next) && Tracks(subs, next, result)
  {
    var sub := subs[i];
    result, next := chosen, at;
    if Compatible(sub.provider, voip, hasAnyAppk) {
      var key := NormalizeSopDeviceId(sub.deviceId);
      if key !in chosen || Priority(sub, connectedSop, voip) > Priority(chosen[key], connectedSop, voip) {
        result, next := chosen[key := sub], at[key := i];
        assert Tracks(subs, next, result);
      }
    }
    SelectionGrows(subs, i, Setting(connectedSop, voip, hasAnyAppk), at, next);
  }

  method AnyAppk(subs: seq<Subscription>) returns (found: bool)
    ensures found <==> HasAppk(subs)
  {
    found := false;
    var i := 0;
    while i < |subs|
      invariant 0 <= i <= |subs| && !found
      invariant forall j :: 0 <= j < i ==> subs[j].provider != Appk
    {
      if subs[i].provider == Appk {
        return true;
      }
      i := i + 1;
    }
  }

  /**
    The device gets nothing exactly when all it has is Appk, or, for VoIP, Apple while somebody has
    Appk.
  */
  lemma NothingSelectedIff(subs: seq<Subscription>, w: Setting, at: map<string, nat>, key: string)
    requires SelectionOf(subs, |subs|, w, at)
    ensures key !in at <==> forall i :: 0 <= i < |subs| && NormalizeSopDeviceId(subs[i].deviceId) == key ==>
                                  if w.voip then subs[i].provider == Apple && w.hasAnyAppk else subs[i].provider == Appk
  {
    if key in at {
      assert Candidate(subs[at[key]], key, w);
    }
  }

  // ---------------------------------------------------------------- delivery records

  datatype DeliveryOutcome = Success | Failure | InvalidToken | Skipped | Held

  /** `subscription` is missing on the record of the websocket publication. */
  datatype Record = Record(subscription: Option<nat>, outcome: DeliveryOutcome)

  /** What the push provider says about one message. */
  datatype SendAnswer = Accepted | Refused | TokenInvalid

  function OutcomeOf(provider: Provider, answer: SendAnswer): DeliveryOutcome {
    if provider.Unknown? then Failure
    else match answer
      case Accepted => Success
      case Refused => Failure
      case TokenInvalid => InvalidToken
  }

  /** All that one delivery leaves behind; `excluded` are the devices left out of the websocket publication. */
  datatype Delivery = Delivery(
    records: seq<Record>,
    removals: seq<nat>,
    excluded: set<string>,
    replayed: bool,
    broadcast: bool,
    failed: bool)

  /** The outcomes recorded for one subscription, or for the websocket publication. */
  function RecordsFor(records: seq<Record>, target: Option<nat>): seq<DeliveryOutcome> {
    if records == [] then []
    else
      var last := records[|records| - 1];
      RecordsFor(records[..|records| - 1], target) + if last.subscription == target then [last.outcome] else []
  }

  lemma {:induction false} RecordsForConcat(a: seq<Record>, b: seq<Record>, target: Option<nat>)
    ensures RecordsFor(a + b, target) == RecordsFor(a, target) + RecordsFor(b, target)
  {
    if b == [] {
      assert a + b == a;
    } else {
      var init := b[..|b| - 1];
      RecordsForConcat(a, init, target);
      assert (a + b)[..|a + b| - 1] == a + init;
    }
  }

  ghost predicate HasId(subs: seq<Subscription>, id: nat) {
    exists i :: 0 <= i < |subs| && subs[i].id == id
  }

  predicate Connected(sub: Subscription, websocket: set<string>) {
    NormalizeSopDeviceId(sub.deviceId) in websocket
  }

  /** Subscriptions whose device has no websocket connection, in order. */
  function Unconnected(subs: seq<Subscription>, websocket: set<string>): seq<Subscription> {
    if subs == [] then []
    else
      var last := subs[|subs| - 1];
      Unconnected(subs[..|subs| - 1], websocket) + if Connected(last, websocket) then [] else [last]
  }

  lemma {:induction false} UnconnectedIs(subs: seq<Subscription>, websocket: set<string>)
    ensures forall s :: s in Unconnected(subs, websocket)
                        <==> s in subs && NormalizeSopDeviceId(s.deviceId) !in websocket
    ensures DistinctSubs(subs) ==> DistinctSubs(Unconnected(subs, websocket))
  {
    if subs != [] {
      var init, last := subs[..|subs| - 1], subs[|subs| - 1];
      UnconnectedIs(init, websocket);
      assert subs == init + [last];
      var kept := Unconnected(init, websocket);
      forall i | 0 <= i < |kept|
        ensures DistinctSubs(subs) ==> kept[i].id != last.id
      {
        assert kept[i] in init;
      }
    }
  }

  /** The two outcomes that are recorded without a send. */
  predicate Marked(sub: Subscription, websocket: set<string>, outcome: DeliveryOutcome) {
    || (outcome == Skipped && Connected(sub, websocket))
    || (outcome == Held && sub.provider == Sop && !Connected(sub, websocket))
  }

  function Marks(subs: seq<Subscription>, websocket: set<string>, outcome: DeliveryOutcome): seq<Record> {
    if subs == [] then []
    else
      var last := subs[|subs| - 1];
      Marks(subs[..|subs| - 1], websocket, outcome)
      + if Marked(last, websocket, outcome) then [Record(Some(last.id), outcome)] else []
  }

  lemma {:induction false} MarksOfOthers(subs: seq<Subscription>, websocket: set<string>, outcome: DeliveryOutcome,
                                         target: Option<nat>)
    requires target.Some? ==> !HasId(subs, target.value)
    ensures RecordsFor(Marks(subs, websocket, outcome), target) == []
  {
    if subs != [] {
      var init, last := subs[..|subs| - 1], subs[|subs| - 1];
      MarksOfOthers(init, websocket, outcome, target);
      var added := if Marked(last, websocket, outcome) then [Record(Some(last.id), outcome)] else [];
      RecordsForConcat(Marks(init, websocket, outcome), added, target);
    }
  }

  lemma {:induction false} MarksOf(subs: seq<Subscription>, websocket: set<string>, outcome: DeliveryOutcome, i: nat)
    requires DistinctSubs(subs) && i < |subs|
    ensures RecordsFor(Marks(subs, websocket, outcome), Some(subs[i].id))
            == if Marked(subs[i], websocket, outcome) then [outcome] else []
  {
    var init, last := subs[..|subs| - 1], subs[|subs| - 1];
    var added := if Marked(last, websocket, outcome) then [Record(Some(last.id), outcome)] else [];
    RecordsForConcat(Marks(init, websocket, outcome), added, Some(subs[i].id));
    if i < |init| {
      MarksOf(init, websocket, outcome, i);
    } else {
      MarksOfOthers(init, websocket, outcome, Some(subs[i].id));
    }
  }

  method RecordSkippedWebSocketDeliveries(records: seq<Record>, subs: seq<Subscription>, websocket: set<string>)
    returns (out: seq<Record>)
    ensures out == records + Marks(subs, websocket, Skipped)
  {
    out := records;
    for i := 0 to |subs|
      invariant out == records + Marks(subs[..i], websocket, Skipped)
    {
      assert subs[..i + 1][..i] == subs[..i];
      if Connected(subs[i], websocket) {
        out := out + [Record(Some(subs[i].id), Skipped)];
      }
    }
    assert subs[..|subs|] == subs;
  }

  method RecordSopDeliveryHolds(records: seq<Record>, subs: seq<Subscription>, websocket: set<string>)
    returns (out: seq<Record>)
    ensures out == records + Marks(subs, websocket, Held)
  {
    out := records;
    for i := 0 to |subs|
      invariant out == records + Marks(subs[..i], websocket, Held)
    {
      assert subs[..i + 1][..i] == subs[..i];
      if subs[i].provider == Sop {
        if !Connected(subs[i], websocket) {
          out := out + [Record(Some(subs[i].id), Held)];
        }
      }
    }
    assert subs[..|subs|] == subs;
  }

  method KeepUnconnected(subs: seq<Subscription>, websocket: set<string>) returns (remaining: seq<Subscription>)
    ensures remaining == Unconnected(subs, websocket)
  {
    remaining := [];
    for i := 0 to |subs|
      invariant remaining == Unconnected(subs[..i], websocket)
    {
      assert subs[..i + 1][..i] == subs[..i];
      if !Connected(subs[i], websocket) {
        remaining := remaining + [subs[i]];
      }
    }
    assert subs[..|subs|] == subs;
  }

  // ---------------------------------------------------------------- sends

  /** The records of sending to these subscriptions, in this order; SOP ones are not sent to. */
  function SendRecords(order: seq<Subscription>, answers: nat -> SendAnswer): seq<Record> {
    if order == [] then []
    else
      var last := order[|order| - 1];
      SendRecords(order[..|order| - 1], answers)
      + if last.provider == Sop then [] else [Record(Some(last.id), OutcomeOf(last.provider, answers(last.id)))]
  }

  predicate Rejected(sub: Subscription, answers: nat -> SendAnswer) {
    sub.provider != Sop && OutcomeOf(sub.provider, answers(sub.id)) == InvalidToken
  }

  function Removals(order: seq<Subscription>, answers: nat -> SendAnswer): seq<nat> {
    if order == [] then []
    else
      var last := order[|order| - 1];
      Removals(order[..|order| - 1], answers) + if Rejected(last, answers) then [last.id] else []
  }

  lemma {:induction false} SendRecordsOfOthers(order: seq<Subscription>, answers: nat -> SendAnswer,
                                               target: Option<nat>)
    requires target.Some? ==> !HasId(order, target.value)
    ensures RecordsFor(SendRecords(order, answers), target) == []
  {
    if order != [] {
      var init, last := order[..|order| - 1], order[|order| - 1];
      SendRecordsOfOthers(init, answers, target);
      var r := Record(Some(last.id), OutcomeOf(last.provider, answers(last.id)));
      RecordsForConcat(SendRecords(init, answers), if last.provider == Sop then [] else [r], target);
    }
  }

  lemma {:induction false} SendRecordsOf(order: seq<Subscription>, answers: nat -> SendAnswer, i: nat)
    requires DistinctSubs(order) && i < |order|
    ensures RecordsFor(SendRecords(order, answers), Some(order[i].id))
            == if order[i].provider == Sop then [] else [OutcomeOf(order[i].provider, answers(order[i].id))]
  {
    var init, last := order[..|order| - 1], order[|order| - 1];
    var r := Record(Some(last.id), OutcomeOf(last.provider, answers(last.id)));
    RecordsForConcat(SendRecords(init, answers), if last.provider == Sop then [] else [r], Some(order[i].id));
    if i < |init| {
      SendRecordsOf(init, answers, i);
    } else {
      SendRecordsOfOthers(init, answers, Some(order[i].id));
    }
  }

  lemma {:induction false} RemovalsAre(order: seq<Subscription>, answers: nat -> SendAnswer, id: nat)
    ensures id in Removals(order, answers)
            <==> exists i :: 0 <= i < |order| && order[i].id == id && Rejected(order[i], answers)
  {
    if order != [] {
      RemovalsAre(order[..|order| - 1], answers, id);
    }
  }

  lemma {:induction false} RemovalsAreDistinct(order: seq<Subscription>, answers: nat -> SendAnswer)
    requires DistinctSubs(order)
    ensures Distinct(Removals(order, answers))
  {
    if order != [] {
      var init, last := order[..|order| - 1], order[|order| - 1];
      RemovalsAreDistinct(init, answers);
      RemovalsAre(init, answers, last.id);
      var removals := Removals(init, answers);
      forall i | 0 <= i < |removals|
        ensures removals[i] != last.id
      {
        assert removals[i] in removals;
      }
    }
  }

  /** Different devices have different subscriptions. */
  ghost predicate DistinctChoices(chosen: map<string, Subscription>) {
    forall k, l :: k in chosen && l in chosen && k != l ==> chosen[k].id != chosen[l].id
  }

  /** `order` lists, once each, the subscriptions chosen for the devices outside `left`. */
  ghost predicate Enumerates(order: seq<Subscription>, chosen: map<string, Subscription>, left: set<string>) {
    && DistinctSubs(order)
    && (forall sub :: sub in order <==> exists key :: key in chosen && key !in left && chosen[key] == sub)
  }

  lemma EnumeratesOneMore(order: seq<Subscription>, chosen: map<string, Subscription>, left: set<string>, key: string)
    requires DistinctChoices(chosen) && Enumerates(order, chosen, left)
    requires key in chosen && key in left
    ensures Enumerates(order + [chosen[key]], chosen, left - {key})
  {
    var next := order + [chosen[key]];
    forall i | 0 <= i < |order|
      ensures order[i].id != chosen[key].id
    {
      assert order[i] in order;
    }
    forall sub
      ensures sub in next <==> exists k :: k in chosen && k !in left - {key} && chosen[k] == sub
    {
      if sub in next && sub !in order {
        assert sub == chosen[key];
      }
      if k :| k in chosen && k !in left - {key} && chosen[k] == sub {
        assert k == key || sub in order;
      }
    }
  }

  /** Sends to each chosen subscription once, in an order nothing prescribes. */
  method SendToDevices(records: seq<Record>, chosen: map<string, Subscription>, answers: nat -> SendAnswer)
    returns (out: seq<Record>, removals: seq<nat>, ghost order: seq<Subscription>)
    requires DistinctChoices(chosen)
    ensures out == records + SendRecords(order, answers) && removals == Removals(order, answers)
    ensures Enumerates(order, chosen, {})
  {
    out, removals, order := records, [], [];
    var left := chosen.Keys;
    while left != {}
      invariant left <= chosen.Keys && Enumerates(order, chosen, left)
      invariant out == records + SendRecords(order, answers) && removals == Removals(order, answers)
      decreases |left|
    {
      var key :| key in left;
      var sub := chosen[key];
      EnumeratesOneMore(order, chosen, left, key);
      left := left - {key};
      out, removals := SendPushNotification(out, removals, sub, answers(sub.id));
      assert (order + [sub])[..|order|] == order;
      order := order + [sub];
    }
  }

  /** One send: a rejected token is queued for removal, and all but SOP leave a record. */
  method SendPushNotification(records: seq<Record>, removals: seq<nat>, sub: Subscription, answer: SendAnswer)
    returns (out: seq<Record>, removed: seq<nat>)
    ensures out == records + if sub.provider == Sop then [] else [Record(Some(sub.id), OutcomeOf(sub.provider, answer))]
    ensures removed == removals + if sub.provider == Sop || sub.provider.Unknown? || answer != TokenInvalid then []
                                  else [sub.id]
    ensures sub.provider.Unknown? ==> OutcomeOf(sub.provider, answer) == Failure
    ensures !sub.provider.Unknown? ==>
              OutcomeOf(sub.provider, answer)
              == match answer case Accepted => Success case Refused => Failure case TokenInvalid => InvalidToken
  {
    out, removed := records, removals;
    var outcome := Failure;
    var failed := false;
    match sub.provider {
      case Sop =>
        return;
      case Unknown(_) =>
        failed := true;
      case _ =>
        match answer {
          case TokenInvalid =>
            removed := removed + [sub.id];
            outcome := InvalidToken;
          case Refused =>
            failed := true;
          case Accepted =>
        }
    }
    if outcome == Failure && !failed {
      outcome := Success;
    }
    out := out + [Record(Some(sub.id), outcome)];
  }

  // ---------------------------------------------------------------- one delivery

  /** Chosen for its device among the subscriptions without a websocket connection. */
  ghost predicate IsSelected(subs: seq<Subscription>, websocket: set<string>, connectedSop: set<string>,
                             pushType: Option<string>, sub: Subscription)
  {
    var remaining := Unconnected(subs, websocket);
    IsFirstBest(remaining, SettingFor(remaining, connectedSop, pushType), NormalizeSopDeviceId(sub.deviceId), sub)
  }

  /** The subscriptions that compete with this one: those of its device, if that has no connection. */
  ghost predicate Rival(subs: seq<Subscription>, websocket: set<string>, sub: Subscription, other: Subscription) {
    && other in subs && NormalizeSopDeviceId(other.deviceId) == NormalizeSopDeviceId(sub.deviceId)
    && NormalizeSopDeviceId(other.deviceId) !in websocket
  }

  ghost predicate AppkLeft(subs: seq<Subscription>, websocket: set<string>) {
    exists sub :: sub in subs && sub.provider == Appk && NormalizeSopDeviceId(sub.deviceId) !in websocket
  }

  /** Which provider wins: a selected subscription passes over no better one of its device. */
  lemma SelectedPassesOver(subs: seq<Subscription>, websocket: set<string>, connectedSop: set<string>,
                           pushType: Option<string>, sub: Subscription, other: Subscription)
    requires IsSelected(subs, websocket, connectedSop, pushType, sub) && Rival(subs, websocket, sub, other)
    ensures MayPassOver(sub.provider, other.provider, NormalizeSopDeviceId(sub.deviceId) in connectedSop,
                        IsVoipPush(pushType), IsVoipPush(pushType) && AppkLeft(subs, websocket))
  {
    var remaining, key := Unconnected(subs, websocket), NormalizeSopDeviceId(sub.deviceId);
    var w := SettingFor(remaining, connectedSop, pushType);
    UnconnectedIs(subs, websocket);
    var i :| 0 <= i < |remaining| && remaining[i] == sub && FirstBest(remaining, |remaining|, i, key, w);
    var j :| 0 <= j < |remaining| && remaining[j] == other;
    FirstBestPassesOver(remaining, i, j, key, w);
    AppkLeftIs(subs, websocket);
  }

  lemma AppkLeftIs(subs: seq<Subscription>, websocket: set<string>)
    ensures HasAppk(Unconnected(subs, websocket)) <==> AppkLeft(subs, websocket)
  {
    var remaining := Unconnected(subs, websocket);
    UnconnectedIs(subs, websocket);
    if i :| 0 <= i < |remaining| && remaining[i].provider == Appk {
      assert remaining[i] in remaining;
    }
    if sub :| sub in subs && sub.provider == Appk && NormalizeSopDeviceId(sub.deviceId) !in websocket {
      assert sub in remaining;
    }
  }

  /** What a delivery finds out from the outside. */
  datatype Circumstances = Circumstances(
    connectedSop: set<string>,
    websocket: set<string>,
    pushType: Option<string>,
    published: bool)

  /** The records one subscription gets from one delivery. */
  ghost function Expected(subs: seq<Subscription>, c: Circumstances, answers: nat -> SendAnswer, sub: Subscription)
    : seq<DeliveryOutcome>
  {
    if NormalizeSopDeviceId(sub.deviceId) in c.websocket then [Skipped]
    else if sub.provider == Sop then [Held]
    else if c.published && IsSelected(subs, c.websocket, c.connectedSop, c.pushType, sub) then
      [OutcomeOf(sub.provider, answers(sub.id))]
    else []
  }

  ghost predicate HasSop(subs: seq<Subscription>) {
    exists i :: 0 <= i < |subs| && subs[i].provider == Sop
  }

  /** A subscription is in the selection exactly when it is selected for its device. */
  lemma SelectionHolds(remaining: seq<Subscription>, w: Setting, at: map<string, nat>,
                       chosen: map<string, Subscription>, sub: Subscription)
    requires SelectionOf(remaining, |remaining|, w, at) && Tracks(remaining, at, chosen)
    ensures IsFirstBest(remaining, w, NormalizeSopDeviceId(sub.deviceId), sub)
            <==> exists key :: key in chosen && chosen[key] == sub
  {
    if key :| key in chosen && chosen[key] == sub {
      assert FirstBest(remaining, |remaining|, at[key], key, w);
    }
    var key := NormalizeSopDeviceId(sub.deviceId);
    if i :| 0 <= i < |remaining| && remaining[i] == sub && FirstBest(remaining, |remaining|, i, key, w) {
      FirstBestIsUnique(remaining, i, at[key], key, w);
    }
  }

  lemma SelectionIsDistinct(remaining: seq<Subscription>, w: Setting, at: map<string, nat>,
                            chosen: map<string, Subscription>)
    requires SelectionOf(remaining, |remaining|, w, at) && Tracks(remaining, at, chosen) && DistinctSubs(remaining)
    ensures DistinctChoices(chosen)
  {
    forall k, l | k in chosen && l in chosen && k != l
      ensures chosen[k].id != chosen[l].id
    {
      assert FirstBest(remaining, |remaining|, at[k], k, w) && FirstBest(remaining, |remaining|, at[l], l, w);
    }
  }

  /** A device with a websocket connection is not pushed to. */
  lemma SelectedIsUnconnected(subs: seq<Subscription>, c: Circumstances, sub: Subscription)
    requires IsSelected(subs, c.websocket, c.connectedSop, c.pushType, sub)
    ensures sub in subs && !Connected(sub, c.websocket)
  {
    UnconnectedIs(subs, c.websocket);
  }

  /** The subscriptions a provider is asked to reach. */
  ghost predicate IsSent(subs: seq<Subscription>, c: Circumstances, sub: Subscription) {
    c.published && sub.provider != Sop && IsSelected(subs, c.websocket, c.connectedSop, c.pushType, sub)
  }

  /** Everything recorded when the websocket packet went out. */
  function AllRecords(subs: seq<Subscription>, c: Circumstances, answers: nat -> SendAnswer,
                      order: seq<Subscription>): seq<Record>
  {
    Marks(subs, c.websocket, Skipped) + Marks(subs, c.websocket, Held)
    + [Record(None, if c.published then Success else Failure)] + SendRecords(order, answers)
  }

  lemma AllRecordsFor(subs: seq<Subscription>, c: Circumstances, answers: nat -> SendAnswer,
                      order: seq<Subscription>, target: Option<nat>)
    ensures RecordsFor(AllRecords(subs, c, answers, order), target)
            == RecordsFor(Marks(subs, c.websocket, Skipped), target)
               + RecordsFor(Marks(subs, c.websocket, Held), target)
               + (if target.None? then [if c.published then Success else Failure] else [])
               + RecordsFor(SendRecords(order, answers), target)
  {
    var skips, holds := Marks(subs, c.websocket, Skipped), Marks(subs, c.websocket, Held);
    var own := [Record(None, if c.published then Success else Failure)];
    RecordsForConcat(skips, holds, target);
    RecordsForConcat(skips + holds, own, target);
    RecordsForConcat(skips + holds + own, SendRecords(order, answers), target);
    assert RecordsFor([], target) == [];
    assert own[..0] == [];
  }

  /** `order` lists, once each, the selected subscriptions: all of them if the packet went out. */
  ghost predicate OrderOf(subs: seq<Subscription>, c: Circumstances, order: seq<Subscription>) {
    && DistinctSubs(order)
    && (forall sub :: sub in order <==>
          c.published && IsSelected(subs, c.websocket, c.connectedSop, c.pushType, sub))
  }

  lemma IdDetermines(subs: seq<Subscription>, i: nat, sub: Subscription)
    requires DistinctSubs(subs) && i < |subs| && sub in subs
    ensures sub.id == subs[i].id ==> sub == subs[i]
  {
    var j :| 0 <= j < |subs| && subs[j] == sub;
  }

  /** Every subscription gets exactly the records it should, and nothing else is recorded. */
  lemma RecordsAreExpected(subs: seq<Subscription>, c: Circumstances, answers: nat -> SendAnswer,
                           order: seq<Subscription>, i: nat)
    requires DistinctSubs(subs) && OrderOf(subs, c, order) && i < |subs|
    ensures RecordsFor(AllRecords(subs, c, answers, order), Some(subs[i].id)) == Expected(subs, c, answers, subs[i])
  {
    var sub := subs[i];
    assert Connected(sub, c.websocket) <==> NormalizeSopDeviceId(sub.deviceId) in c.websocket;
    AllRecordsFor(subs, c, answers, order, Some(sub.id));
    MarksOf(subs, c.websocket, Skipped, i);
    MarksOf(subs, c.websocket, Held, i);
    SendRecordsAre(subs, c, answers, order, i);
    if sub in order {
      SelectedIsUnconnected(subs, c, sub);
    }
  }

  lemma SendRecordsAre(subs: seq<Subscription>, c: Circumstances, answers: nat -> SendAnswer,
                       order: seq<Subscription>, i: nat)
    requires DistinctSubs(subs) && OrderOf(subs, c, order) && i < |subs|
    ensures RecordsFor(SendRecords(order, answers), Some(subs[i].id))
            == if subs[i] in order && subs[i].provider != Sop
               then [OutcomeOf(subs[i].provider, answers(subs[i].id))] else []
  {
    var sub := subs[i];
    if sub in order {
      var k :| 0 <= k < |order| && order[k] == sub;
      SendRecordsOf(order, answers, k);
    } else {
      forall k | 0 <= k < |order|
        ensures order[k].id != sub.id
      {
        assert order[k] in order;
        SelectedIsUnconnected(subs, c, order[k]);
        IdDetermines(subs, i, order[k]);
      }
      SendRecordsOfOthers(order, answers, Some(sub.id));
    }
  }

  lemma OtherRecords(subs: seq<Subscription>, c: Circumstances, answers: nat -> SendAnswer,
                     order: seq<Subscription>, target: Option<nat>)
    requires OrderOf(subs, c, order)
    requires target.Some? ==> !HasId(subs, target.value)
    ensures RecordsFor(AllRecords(subs, c, answers, order), target)
            == if target.None? then [if c.published then Success else Failure] else []
  {
    AllRecordsFor(subs, c, answers, order, target);
    MarksOfOthers(subs, c.websocket, Skipped, target);
    MarksOfOthers(subs, c.websocket, Held, target);
    if target.Some? {
      forall k | 0 <= k < |order|
        ensures order[k].id != target.value
      {
        assert order[k] in order;
        SelectedIsUnconnected(subs, c, order[k]);
      }
    }
    SendRecordsOfOthers(order, answers, target);
  }

  /** What one delivery to these subscriptions must leave behind. */
  ghost predicate DeliveredAs(subs: seq<Subscription>, c: Circumstances, answers: nat -> SendAnswer,
                              records: seq<Record>, removals: seq<nat>)
  {
    && (forall i :: 0 <= i < |subs| ==> RecordsFor(records, Some(subs[i].id)) == Expected(subs, c, answers, subs[i]))
    && (forall id :: !HasId(subs, id) ==> RecordsFor(records, Some(id)) == [])
    && RecordsFor(records, None) == [if c.published then Success else Failure]
    && Distinct(removals)
    && (forall id :: id in removals <==>
          exists sub :: IsSent(subs, c, sub) && sub.id == id && OutcomeOf(sub.provider, answers(id)) == InvalidToken)
  }

  lemma DeliveryMeetsSpecification(subs: seq<Subscription>, c: Circumstances, answers: nat -> SendAnswer,
                                   order: seq<Subscription>)
    requires DistinctSubs(subs) && OrderOf(subs, c, order)
    ensures DeliveredAs(subs, c, answers, AllRecords(subs, c, answers, order), Removals(order, answers))
  {
    forall i | 0 <= i < |subs|
      ensures RecordsFor(AllRecords(subs, c, answers, order), Some(subs[i].id)) == Expected(subs, c, answers, subs[i])
    {
      RecordsAreExpected(subs, c, answers, order, i);
    }
    forall id | !HasId(subs, id)
      ensures RecordsFor(AllRecords(subs, c, answers, order), Some(id)) == []
    {
      OtherRecords(subs, c, answers, order, Some(id));
    }
    OtherRecords(subs, c, answers, order, None);
    RemovalsAreDistinct(order, answers);
    forall id
      ensures id in Removals(order, answers)
              <==> exists sub :: IsSent(subs, c, sub) && sub.id == id
                                 && OutcomeOf(sub.provider, answers(id)) == InvalidToken
    {
      RemovalsAreRejected(subs, c, answers, order, id);
    }
  }

  lemma RemovalsAreRejected(subs: seq<Subscription>, c: Circumstances, answers: nat -> SendAnswer,
                            order: seq<Subscription>, id: nat)
    requires OrderOf(subs, c, order)
    ensures id in Removals(order, answers)
            <==> exists sub :: IsSent(subs, c, sub) && sub.id == id
                               && OutcomeOf(sub.provider, answers(id)) == InvalidToken
  {
    RemovalsAre(order, answers, id);
    if i :| 0 <= i < |order| && order[i].id == id && Rejected(order[i], answers) {
      assert order[i] in order && IsSent(subs, c, order[i]);
    }
    if sub :| IsSent(subs, c, sub) && sub.id == id && OutcomeOf(sub.provider, answers(id)) == InvalidToken {
      assert sub in order;
    }
  }

  /** Chooses among the subscriptions left after the connected ones are filtered out. */
  method SelectRemaining(subs: seq<Subscription>, c: Circumstances) returns (chosen: map<string, Subscription>)
    requires DistinctSubs(subs)
    ensures DistinctChoices(chosen)
    ensures forall sub :: IsSelected(subs, c.websocket, c.connectedSop, c.pushType, sub)
                          <==> exists key :: key in chosen && chosen[key] == sub
  {
    var remaining := KeepUnconnected(subs, c.websocket);
    ghost var at;
    chosen, at := SelectSubscriptionsByDevice(remaining, c.connectedSop, c.pushType);
    UnconnectedIs(subs, c.websocket);
    ghost var w := SettingFor(remaining, c.connectedSop, c.pushType);
    SelectionIsDistinct(remaining, w, at, chosen);
    forall sub
      ensures IsSelected(subs, c.websocket, c.connectedSop, c.pushType, sub)
              <==> exists key :: key in chosen && chosen[key] == sub
    {
      SelectionHolds(remaining, w, at, chosen, sub);
    }
  }

  /** The part of a delivery after the broadcast; `order` is the order of the sends. */
  method FanOut(subs: seq<Subscription>, c: Circumstances, answers: nat -> SendAnswer)
    returns (records: seq<Record>, removals: seq<nat>, ghost order: seq<Subscription>)
    requires DistinctSubs(subs)
    ensures OrderOf(subs, c, order)
    ensures records == AllRecords(subs, c, answers, order) && removals == Removals(order, answers)
  {
    records, removals, order := [], [], [];
    if |subs| == 0 {
      records := records + [Record(None, if c.published then Success else Failure)];
      NobodySelected(subs, c);
      return;
    }
    records := RecordSkippedWebSocketDeliveries(records, subs, c.websocket);
    var chosen := SelectRemaining(subs, c);
    records := RecordSopDeliveryHolds(records, subs, c.websocket);
    records := records + [Record(None, if c.published then Success else Failure)];
    if c.published {
      records, removals, order := SendToDevices(records, chosen, answers);
    }
  }

  lemma NobodySelected(subs: seq<Subscription>, c: Circumstances)
    requires subs == []
    ensures OrderOf(subs, c, [])
  {
    forall sub
      ensures !IsSelected(subs, c.websocket, c.connectedSop, c.pushType, sub)
    {
    }
  }

  /**
    Delivers one notification.  `found` is missing when the subscriptions cannot be read, `connected`
    when the websocket service does not answer; `answers` says how each push provider reacts.
  */
  method DeliverPushNotification(found: Option<seq<Subscription>>, isSavable: bool, connectedSop: set<string>,
                                 excludedIds: seq<string>, connected: Option<set<string>>, published: bool,
                                 pushType: Option<string>, answers: nat -> SendAnswer)
    returns (d: Delivery)
    requires found.Some? ==> DistinctSubs(found.value)
    ensures found.None? ==> d == Delivery([], [], {}, false, false, true)
    ensures found.Some? ==>
              && d.broadcast && d.failed == !published
              && (forall id :: id in d.excluded <==> id in excludedIds || (found.value != [] && id in connectedSop))
              && (d.replayed <==> !isSavable && HasSop(found.value))
              && DeliveredAs(found.value,
                             Circumstances(connectedSop, if connected.Some? then connected.value else {}, pushType,
                                           published),
                             answers, d.records, d.removals)
  {
    if found.None? {
      return Delivery([], [], {}, false, false, true);
    }
    var replayed := ShouldQueueSopReplay(isSavable, found.value);
    var websocket := if connected.Some? then connected.value else {};
    var c := Circumstances(connectedSop, websocket, pushType, published);
    var records, removals;
    ghost var order;
    records, removals, order := FanOut(found.value, c, answers);
    DeliveryMeetsSpecification(found.value, c, answers, order);
    var excluded := BuildWebSocketExclusions(if |found.value| == 0 then {} else connectedSop, excludedIds);
    return Delivery(records, removals, excluded, replayed, true, !published);
  }

  method BuildWebSocketExclusions(deviceIds: set<string>, excludedIds: seq<string>) returns (exclusions: set<string>)
    ensures forall id :: id in exclusions <==> id in excludedIds || id in deviceIds
  {
    exclusions := deviceIds;
    for i := 0 to |excludedIds|
      invariant forall id :: id in exclusions <==> id in excludedIds[..i] || id in deviceIds
    {
      assert excludedIds[..i + 1] == excludedIds[..i] + [excludedIds[i]];
      exclusions := exclusions + {excludedIds[i]};
    }
    assert excludedIds[..|excludedIds|] == excludedIds;
  }

  method ShouldQueueSopReplay(isSavable: bool, subs: seq<Subscription>) returns (queue: bool)
    ensures queue <==> !isSavable && HasSop(subs)
  {
    if isSavable {
      return false;
    }
    queue := false;
    for i := 0 to |subs|
      invariant forall j :: 0 <= j < i ==> subs[j].provider != Sop
    {
      if subs[i].provider == Sop {
        return true;
      }
    }
  }
}
