# Enable 2G preference controller

A model of `Enable2gPreferenceController`, the Android Settings controller behind the
per-SIM "Enable 2G" switch. The controller reads the bitmask of network types the
telephony provider allows for one subscription (under the ENABLE_2G reason), reports 2G
as on when that bitmask shares a bit with `BITMASK_2G` (the GSM, GPRS, EDGE, CDMA and
1xRTT bits), and on a toggle writes the bitmask back with every 2G bit set or cleared,
recording one metrics event. It also decides whether the switch is shown at all.

Two modules:

- `Enable2gPolicy` (`enable2g_policy.dfy`): the decision logic as pure functions —
  `Bitmask2g`, the "2G on" test `TwoGOn`, the written bitmask `NewAllowedTypes`, the
  decision of one toggle `Toggle`, the availability decision `Availability` — and the
  lemmas about one request and about any series of requests (`Run`, `Writes`).
- `Enable2gController` (`enable2g_controller.dfy`): the controller as a class whose
  fields are the bound subscription id, the provider's allowed types for it, and the logs
  of written bitmasks and of metrics events; `Init`, `GetAvailabilityStatus`, `IsChecked`
  and `SetChecked` are its methods. Its invariant `Valid()` ties the provider's value to
  `Run` of the requests made since binding, the number of writes to `Writes`, and each
  metrics event to the 2G state of the bitmask written with it.

The allowed-types value is a Java `long` that the controller only combines with `|`,
`& ~` and `(… & …) != 0`. It is modelled exactly as the set of positions (0 to 63) of its
one bits: `a | b` is `a + b`, `a & ~b` is `a - b`, `(a & b) != 0` is `a * b != {}`. The
numeric values of the platform's five network-type bits are not known here, so they are
carried in `NetworkTypeBits` and every result holds for all of them; the controller is
built only for a non-empty `BITMASK_2G`.

The platform query `isUsableSubscriptionId` is the function `isUsable` given to the
constructor; the carrier config (reduced to its hide flag, `None` when there is no config)
and the radio capability are inputs of `GetAvailabilityStatus`.

The availability decision has four conditions, not three: usable subscription, a carrier
config exists, the config does not hide the switch, and the radio supports the
allowed-types bitmask. Enabling then disabling does not restore every starting bitmask:
it does exactly when the start has no 2G bit, because disabling clears all five bits
(`EnableThenDisableRestoresIff`); disabling then enabling restores exactly a start that
holds every 2G bit (`DisableThenEnableRestoresIff`).

## Model

| member | source | states |
|---|---|---|
| Enable2gPolicy.TwoGOnIffAnyType | src/com/android/settings/network/telephony/Enable2gPreferenceController.java:46-50 | 2G counts as on exactly when one of the GSM, GPRS, EDGE, CDMA, 1xRTT bits is allowed; BITMASK_2G is empty only if all five bits are |
| Enable2gPolicy.Availability | src/com/android/settings/network/telephony/Enable2gPreferenceController.java:105-111 | AVAILABLE iff usable, carrier config present with hide flag false, and radio capability supported; any failing condition, a missing config in particular, gives CONDITIONALLY_UNAVAILABLE |
| Enable2gPolicy.NewAllowedTypesReachesRequest | src/com/android/settings/network/telephony/Enable2gPreferenceController.java:150-157 | enabling sets every 2G bit and disabling clears every 2G bit, so with a non-empty mask the 2G state afterwards is the requested one |
| Enable2gPolicy.NewAllowedTypesKeepsOtherBits | src/com/android/settings/network/telephony/Enable2gPreferenceController.java:150-157 | the written bitmask agrees with the current one on every bit outside BITMASK_2G, in both directions |
| Enable2gPolicy.ToggleRejectsUnusable | src/com/android/settings/network/telephony/Enable2gPreferenceController.java:141-143 | an unusable subscription is rejected whatever the request and the provider's value, and the value is unchanged |
| Enable2gPolicy.ToggleWritesIffStateDiffers | src/com/android/settings/network/telephony/Enable2gPreferenceController.java:141-149 | a write happens iff the subscription is usable and the current 2G state differs from the request; requesting the current state is a no-op |
| Enable2gPolicy.ToggleWrites | src/com/android/settings/network/telephony/Enable2gPreferenceController.java:150-159 | when a write happens it is exactly `cur` OR-ed with BITMASK_2G on enabling and `cur` with BITMASK_2G cleared on disabling, reaches the requested state and keeps the other bits |
| Enable2gPolicy.StepReachesRequest | src/com/android/settings/network/telephony/Enable2gPreferenceController.java:144-159 | after any request on a usable subscription, written or not, the 2G state is the requested one and the other bits are unchanged |
| Enable2gPolicy.RunKeepsOtherBits | src/com/android/settings/network/telephony/Enable2gPreferenceController.java:150-159 | after any series of requests the bits outside BITMASK_2G are those of the start |
| Enable2gPolicy.RunTwoGBitsAllOrNone | src/com/android/settings/network/telephony/Enable2gPreferenceController.java:150-159 | after any series of requests the 2G bits are the starting ones, all of them, or none: no new partial set arises |
| Enable2gPolicy.RunFollowsLastRequest | src/com/android/settings/network/telephony/Enable2gPreferenceController.java:144-159 | after a non-empty series of requests the 2G state is the last one requested |
| Enable2gPolicy.RunRepeatIsNoOp | src/com/android/settings/network/telephony/Enable2gPreferenceController.java:146-149 | repeating the last request leaves the provider's value unchanged |
| Enable2gPolicy.WritesCountFlips | src/com/android/settings/network/telephony/Enable2gPreferenceController.java:146-162 | a series of requests writes, and records a metrics event, once per request that differs from the state before it |
| Enable2gPolicy.EnableThenDisableRestoresIff | src/com/android/settings/network/telephony/Enable2gPreferenceController.java:146-157 | enabling then disabling restores the start exactly when the start has no 2G bit |
| Enable2gPolicy.DisableThenEnableRestoresIff | src/com/android/settings/network/telephony/Enable2gPreferenceController.java:146-157 | disabling then enabling restores the start exactly when the start has every 2G bit |
| Enable2gController.Enable2gPreferenceController.constructor | src/com/android/settings/network/telephony/Enable2gPreferenceController.java:63-67 | the controller starts with the given 2G mask, usability query, subscription and provider value, and empty logs |
| Enable2gController.Enable2gPreferenceController.Init | src/com/android/settings/network/telephony/Enable2gPreferenceController.java:75-80 | binding sets the subscription id and the provider to that subscription's value, and leaves the logs alone |
| Enable2gController.Enable2gPreferenceController.GetAvailabilityStatus | src/com/android/settings/network/telephony/Enable2gPreferenceController.java:98-112 | AVAILABLE iff the given subscription is usable, its config exists and does not hide the switch, and the radio supports the bitmask; no config gives unavailable |
| Enable2gController.Enable2gPreferenceController.IsChecked | src/com/android/settings/network/telephony/Enable2gPreferenceController.java:121-126 | reports whether the provider's value shares a bit with BITMASK_2G, which after any accepted request since binding is the last request |
| Enable2gController.Enable2gPreferenceController.SetChecked | src/com/android/settings/network/telephony/Enable2gPreferenceController.java:139-163 | returns true iff usable and the 2G state differs from the request; then writes exactly `cur` with every 2G bit set or cleared and logs one write and one event carrying the request; otherwise nothing changes; other bits are always kept |
| Enable2gController.SetCheckedToCurrentIsNoOp | src/com/android/settings/network/telephony/Enable2gPreferenceController.java:144-149 | `setChecked(isChecked())` returns false and changes neither the provider's value nor the logs |
| Enable2gController.EnableThenDisableRestores | src/com/android/settings/network/telephony/Enable2gPreferenceController.java:146-162 | on a usable subscription with no 2G bit, enabling then disabling writes `cur` with every 2G bit set, then `cur`, records events true then false, and restores the value |

## Left out

- The Android `Context`, the system-service lookups and `FeatureFactory` (constructor and `init`): foreign calls. The carrier config, the usability query and the provider's value of the bound subscription are given to the model instead.
- The fallback in `getAvailabilityStatus` that replaces a missing telephony manager with an unscoped one: the provider is modelled as always present and scoped to the bound subscription.
- `Log.w` and `Log.i`: output only.
- The metrics provider's internals: an event is modelled as the boolean it carries (the action is always ACTION_2G_ENABLED).
- The numeric values of the `NETWORK_TYPE_BITMASK_*` constants: not known here; every result holds for any values with a non-empty union.
- The UI superclass, the XML key and `init` returning `this` for chaining.
- Changes to the provider's value by anyone other than this controller, in particular between the read and the write of `setChecked`: the code does not guard against them, and the model's provider changes only through this controller's writes and `Init`.
- Faults raised by the provider's write: the model's writes always succeed.
- SetChecked: reads of the provider are not counted, so the contract does not state that a rejected request reads nothing; the method returns before reading in that case.
