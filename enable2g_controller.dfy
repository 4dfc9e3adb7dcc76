/**
 The "Enable 2G" preference controller of one subscription, as an object whose
 state is what the controller reads and writes: the bound subscription id, the
 allowed network types that the telephony provider holds for that subscription
 under the ENABLE_2G reason, and the logs of the bitmasks it wrote and of the
 metrics events it recorded.

 Whether a subscription id is usable is a platform query, kept as the function
 `isUsable`; the carrier config and the radio capability are inputs of
 `GetAvailabilityStatus`.
 */
module Enable2gController {
  import opened Enable2gPolicy

  class Enable2gPreferenceController {
    /** BITMASK_2G. */
    const mask2g: Bitmask
    /** The platform's `isUsableSubscriptionId`. */
    const isUsable: int -> bool

    /** The subscription this controller is bound to. */
    var subId: int
    /** The provider's allowed network types for `subId` under the ENABLE_2G reason. */
    var allowedTypes: Bitmask
    /** Every bitmask written to the provider, oldest first. */
    var writes: seq<Bitmask>
    /** The value of every ACTION_2G_ENABLED metrics event recorded, oldest first. */
    var events: seq<bool>

    /** The provider's allowed types when the controller was last bound. */
    ghost var boundTypes: Bitmask
    /** The requests accepted since the controller was last bound (those on a usable subscription). */
    ghost var requests: seq<bool>
    /** How many writes had been made when the controller was last bound. */
    ghost var writesAtBind: nat

    ghost predicate Valid()
      reads this
    {
      mask2g != {} &&
      |writes| == |events| &&
      (forall i :: 0 <= i < |writes| ==> events[i] == TwoGOn(writes[i], mask2g)) &&
      allowedTypes == Run(boundTypes, mask2g, requests) &&
      writesAtBind <= |writes| &&
      |writes| - writesAtBind == Writes(boundTypes, mask2g, requests)
    }

    /** The controller for the given 2G bits and usability query, bound to `id`, whose provider
        currently holds `providerTypes`. */
    constructor (bits: NetworkTypeBits, usable: int -> bool, id: int, providerTypes: Bitmask)
      requires Bitmask2g(bits) != {}
      ensures Valid()
      ensures mask2g == Bitmask2g(bits) && isUsable == usable
      ensures subId == id && allowedTypes == providerTypes && writes == [] && events == []
    {
      mask2g := Bitmask2g(bits);
      isUsable := usable;
      subId := id;
      allowedTypes := providerTypes;
      writes := [];
      events := [];
      boundTypes := providerTypes;
      requests := [];
      writesAtBind := 0;
    }

    /** `init`: binds the controller to subscription `id`, whose provider holds `providerTypes`. */
    method Init(id: int, providerTypes: Bitmask)
      requires Valid()
      modifies this`subId, this`allowedTypes, this`boundTypes, this`requests, this`writesAtBind
      ensures Valid()
      ensures subId == id && allowedTypes == providerTypes
      ensures writes == old(writes) && events == old(events)
    {
      subId := id;
      allowedTypes := providerTypes;
      boundTypes := providerTypes;
      requests := [];
      writesAtBind := |writes|;
    }

    /** `getAvailabilityStatus(id)`: AVAILABLE exactly when `id` is usable, there is a carrier config
        (`hideEnable2g` is its hide flag, `None` without one) that does not hide the switch, and the
        radio supports the allowed-network-types bitmask. */
    method GetAvailabilityStatus(id: int, hideEnable2g: Option<bool>, radioSupportsBitmask: bool)
      returns (status: AvailabilityStatus)
      ensures status == Available <==> isUsable(id) && hideEnable2g == Some(false) && radioSupportsBitmask
      ensures hideEnable2g.None? ==> status == ConditionallyUnavailable
    {
      status := Availability(isUsable(id), hideEnable2g, radioSupportsBitmask);
    }

    /** `isChecked`: whether 2G is on now, which after any accepted request is the last one made. */
    method IsChecked() returns (checked: bool)
      requires Valid()
      ensures checked <==> allowedTypes * mask2g != {}
      ensures requests != [] ==> checked == requests[|requests| - 1]
    {
      checked := TwoGOn(allowedTypes, mask2g);
      if requests != [] {
        RunFollowsLastRequest(boundTypes, mask2g, requests);
      }
    }

    /** `setChecked(isChecked)`: on a usable subscription whose 2G state differs from the request,
        writes the allowed types with every 2G bit set (or cleared), records one metrics event
        carrying the request and returns true; otherwise changes nothing and returns false. */
    method SetChecked(isChecked: bool) returns (changed: bool)
      requires Valid()
      modifies this`allowedTypes, this`writes, this`events, this`requests
      ensures Valid()
      ensures changed <==> isUsable(subId) && TwoGOn(old(allowedTypes), mask2g) != isChecked
      ensures changed ==> allowedTypes == (if isChecked then old(allowedTypes) + mask2g else old(allowedTypes) - mask2g)
      ensures changed ==> writes == old(writes) + [allowedTypes] && events == old(events) + [isChecked]
      ensures !changed ==> allowedTypes == old(allowedTypes) && writes == old(writes) && events == old(events)
      ensures isUsable(subId) ==> TwoGOn(allowedTypes, mask2g) == isChecked
      ensures allowedTypes - mask2g == old(allowedTypes) - mask2g
      ensures requests == if isUsable(subId) then old(requests) + [isChecked] else old(requests)
    {
      if !isUsable(subId) {
        return false;
      }
      var current := allowedTypes;
      var enabled := TwoGOn(current, mask2g);
      RunSnoc(boundTypes, mask2g, requests, isChecked);
      WritesSnoc(boundTypes, mask2g, requests, isChecked);
      StepReachesRequest(current, mask2g, isChecked);
      requests := requests + [isChecked];
      if enabled == isChecked {
        return false;
      }
      var newTypes := if isChecked then current + mask2g else current - mask2g;
      allowedTypes := newTypes;
      writes := writes + [newTypes];
      events := events + [isChecked];
      changed := true;
    }
  }

  /** `setChecked(isChecked())` never writes and records nothing. */
  method SetCheckedToCurrentIsNoOp(c: Enable2gPreferenceController) returns (changed: bool)
    requires c.Valid()
    modifies c
    ensures c.Valid()
    ensures !changed
    ensures c.allowedTypes == old(c.allowedTypes) && c.writes == old(c.writes) && c.events == old(c.events)
  {
    var on := c.IsChecked();
    changed := c.SetChecked(on);
  }

  /** On a usable subscription with no 2G bit allowed, enabling and then disabling 2G restores the
      provider's allowed types, after writing `cur | BITMASK_2G` and then `cur`. */
  method EnableThenDisableRestores(c: Enable2gPreferenceController)
    requires c.Valid()
    requires c.isUsable(c.subId)
    requires c.allowedTypes * c.mask2g == {}
    modifies c
    ensures c.Valid()
    ensures c.allowedTypes == old(c.allowedTypes)
    ensures c.writes == old(c.writes) + [old(c.allowedTypes) + c.mask2g, old(c.allowedTypes)]
    ensures c.events == old(c.events) + [true, false]
  {
    ghost var start := c.allowedTypes;
    var enabled := c.SetChecked(true);
    var disabled := c.SetChecked(false);
    EnableThenDisableRestoresIff(start, c.mask2g);
    RunTwo(start, c.mask2g, true, false);
  }
}
