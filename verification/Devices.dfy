/**
  Push subscriptions and their devices.  SOP subscriptions carry the device id with a ":sop"
  suffix.
*/
module Devices {
  import opened Basics

  datatype Provider = Apple | Google | Sop | UnifiedPush | Appk | Unknown(code: int)

  datatype Subscription = Subscription(
    id: nat,
    accountId: nat,
    deviceId: string,
    provider: Provider,
    token: string,
    active: bool,
    appId: Option<string>,
    createdAt: int)

  /** The primary key. */
  ghost predicate DistinctSubs(subs: seq<Subscription>) {
    forall i, j :: 0 <= i < j < |subs| ==> subs[i].id != subs[j].id
  }

  const SOP_SUFFIX := ":sop"

  predicate HasSopSuffix(deviceId: string) {
    |deviceId| >= |SOP_SUFFIX| && deviceId[|deviceId| - |SOP_SUFFIX|..] == SOP_SUFFIX
  }

  function NormalizeSopDeviceId(deviceId: string): string {
    if HasSopSuffix(deviceId) then deviceId[..|deviceId| - |SOP_SUFFIX|] else deviceId
  }

  /** A device and its SOP subscription get the same key; at most one suffix is stripped. */
  lemma NormalizeJoinsSop(deviceId: string)
    ensures NormalizeSopDeviceId(deviceId + ":sop") == deviceId
    ensures NormalizeSopDeviceId(deviceId) == deviceId
            <==> !(exists base: string :: deviceId == base + ":sop")
  {
    var sop := deviceId + SOP_SUFFIX;
    assert sop[|sop| - |SOP_SUFFIX|..] == SOP_SUFFIX && sop[..|sop| - |SOP_SUFFIX|] == deviceId;
    if HasSopSuffix(deviceId) {
      var base := deviceId[..|deviceId| - |SOP_SUFFIX|];
      assert deviceId == base + ":sop";
    }
    forall base: string | deviceId == base + SOP_SUFFIX
      ensures HasSopSuffix(deviceId)
    {
      assert deviceId[|deviceId| - |SOP_SUFFIX|..] == SOP_SUFFIX;
    }
  }
}
