/**
 The decision logic of the per-subscription "Enable 2G" switch, as pure functions
 over the allowed-network-types bitmask.

 The bitmask is a Java `long` that the controller only ever combines with `|`,
 `& ~` and `& ... != 0`. It is modelled exactly as the set of the positions of
 its one bits (0 to 63): `a | b` is `a + b`, `a & ~b` is `a - b`, and
 `(a & b) != 0` is `a * b != {}`.

 The platform's values of the five network-type bits are not part of this model;
 they are carried in `NetworkTypeBits`, and every property below is proved for
 all of them (or for every non-empty 2G mask).
 */
module Enable2gPolicy {

  datatype Option<T> = None | Some(value: T)

  /** A bit position of a 64-bit Java `long`. */
  newtype BitIndex = i: int | 0 <= i < 64

  /** A Java `long` used as a bitmask: the positions of its one bits. */
  type Bitmask = set<BitIndex>

  /** The network-type bits of the platform that make up "2G". */
  datatype NetworkTypeBits = NetworkTypeBits(gsm: Bitmask, gprs: Bitmask, edge: Bitmask, cdma: Bitmask, oneXRtt: Bitmask)

  /** BITMASK_2G: the GSM, GPRS, EDGE, CDMA and 1xRTT bits OR-ed together. */
  function Bitmask2g(bits: NetworkTypeBits): Bitmask
  {
    bits.gsm + bits.gprs + bits.edge + bits.cdma + bits.oneXRtt
  }

  /** Allowed types count as "2G on" when they share a bit with the 2G mask. */
  predicate TwoGOn(allowed: Bitmask, mask: Bitmask)
  {
    allowed * mask != {}
  }

  /** The bitmask written when 2G is switched to `isChecked`: the mask OR-ed in, or AND-ed out. */
  function NewAllowedTypes(cur: Bitmask, mask: Bitmask, isChecked: bool): Bitmask
  {
    if isChecked then cur + mask else cur - mask
  }

  /** What one `setChecked` request decides. */
  datatype ToggleOutcome =
    | Rejected                     // the bound subscription is not usable: nothing is read or written
    | AlreadyInState               // the current 2G state is the requested one: nothing is written
    | Written(newTypes: Bitmask)   // `newTypes` is written and one metrics event is recorded

  /** The decision `setChecked(isChecked)` takes for a subscription of the given usability
      whose provider currently holds `cur`. */
  function Toggle(usable: bool, cur: Bitmask, mask: Bitmask, isChecked: bool): ToggleOutcome
  {
    if !usable then Rejected
    else if TwoGOn(cur, mask) == isChecked then AlreadyInState
    else Written(NewAllowedTypes(cur, mask, isChecked))
  }

  /** The provider's allowed types once the outcome has taken effect. */
  function AllowedAfter(cur: Bitmask, outcome: ToggleOutcome): Bitmask
  {
    match outcome
    case Written(n) => n
    case _ => cur
  }

  /** AVAILABLE or CONDITIONALLY_UNAVAILABLE. */
  datatype AvailabilityStatus = Available | ConditionallyUnavailable

  /** The availability of the switch for a subscription of the given usability, given the carrier
      config's hide flag (`None` when there is no carrier config) and whether the radio supports
      the allowed-network-types bitmask. */
  function Availability(usable: bool, hideEnable2g: Option<bool>, radioSupportsBitmask: bool): (status: AvailabilityStatus)
    ensures status == Available <==> usable && hideEnable2g == Some(false) && radioSupportsBitmask
    ensures !usable || hideEnable2g.None? || hideEnable2g == Some(true) || !radioSupportsBitmask
      ==> status == ConditionallyUnavailable
  {
    var visible := usable && hideEnable2g.Some? && !hideEnable2g.value && radioSupportsBitmask;
    if visible then Available else ConditionallyUnavailable
  }

  // ---------------------------------------------------------------------------
  // The 2G mask

  /** 2G is on exactly when one of the five technologies is allowed, and the mask is
      empty only when all five bits are. */
  lemma TwoGOnIffAnyType(bits: NetworkTypeBits, allowed: Bitmask)
    ensures TwoGOn(allowed, Bitmask2g(bits)) <==>
      TwoGOn(allowed, bits.gsm) || TwoGOn(allowed, bits.gprs) || TwoGOn(allowed, bits.edge) ||
      TwoGOn(allowed, bits.cdma) || TwoGOn(allowed, bits.oneXRtt)
    ensures Bitmask2g(bits) == {} <==>
      bits.gsm == {} && bits.gprs == {} && bits.edge == {} && bits.cdma == {} && bits.oneXRtt == {}
  {
  }

  // ---------------------------------------------------------------------------
  // One request

  /** Enabling OR-s in every 2G bit, so 2G is on afterwards (the mask being non-empty);
      disabling clears every 2G bit, so 2G is off afterwards. */
  lemma NewAllowedTypesReachesRequest(cur: Bitmask, mask: Bitmask, isChecked: bool)
    requires mask != {}
    ensures isChecked ==> mask <= NewAllowedTypes(cur, mask, isChecked)
    ensures !isChecked ==> NewAllowedTypes(cur, mask, isChecked) * mask == {}
    ensures TwoGOn(NewAllowedTypes(cur, mask, isChecked), mask) == isChecked
  {
  }

  /** Bits outside the 2G mask are never touched, in either direction. */
  lemma NewAllowedTypesKeepsOtherBits(cur: Bitmask, mask: Bitmask, isChecked: bool)
    ensures NewAllowedTypes(cur, mask, isChecked) - mask == cur - mask
  {
  }

  /** An unusable subscription is rejected whatever is requested and whatever the provider holds. */
  lemma ToggleRejectsUnusable(cur: Bitmask, mask: Bitmask, isChecked: bool)
    ensures Toggle(false, cur, mask, isChecked) == Rejected
    ensures AllowedAfter(cur, Toggle(false, cur, mask, isChecked)) == cur
  {
  }

  /** A write happens exactly when the subscription is usable and the current 2G state differs
      from the requested one; so requesting the current state is a no-op. */
  lemma ToggleWritesIffStateDiffers(usable: bool, cur: Bitmask, mask: Bitmask, isChecked: bool)
    ensures Toggle(usable, cur, mask, isChecked).Written? <==> usable && TwoGOn(cur, mask) != isChecked
    ensures usable ==> Toggle(usable, cur, mask, TwoGOn(cur, mask)) == AlreadyInState
  {
  }

  /** A write on enabling is exactly `cur | mask`, on disabling exactly `cur & ~mask`; afterwards the
      2G state is the requested one and the bits outside the mask are those of `cur`. */
  lemma ToggleWrites(cur: Bitmask, mask: Bitmask, isChecked: bool)
    requires mask != {}
    requires TwoGOn(cur, mask) != isChecked
    ensures isChecked ==> Toggle(true, cur, mask, isChecked) == Written(cur + mask)
    ensures !isChecked ==> Toggle(true, cur, mask, isChecked) == Written(cur - mask)
    ensures TwoGOn(AllowedAfter(cur, Toggle(true, cur, mask, isChecked)), mask) == isChecked
    ensures AllowedAfter(cur, Toggle(true, cur, mask, isChecked)) - mask == cur - mask
  {
  }

  // ---------------------------------------------------------------------------
  // A series of requests on a usable subscription with no outside change to the provider

  /** The provider's allowed types after one request on a usable subscription. */
  function Step(cur: Bitmask, mask: Bitmask, isChecked: bool): Bitmask
  {
    AllowedAfter(cur, Toggle(true, cur, mask, isChecked))
  }

  /** After a request on a usable subscription the 2G state is the requested one, whether or not
      a write was needed, and the bits outside the mask are unchanged. */
  lemma StepReachesRequest(cur: Bitmask, mask: Bitmask, isChecked: bool)
    requires mask != {}
    ensures TwoGOn(Step(cur, mask, isChecked), mask) == isChecked
    ensures Step(cur, mask, isChecked) - mask == cur - mask
  {
  }

  /** The provider's allowed types after `setChecked(reqs[0])`, `setChecked(reqs[1])`, ... */
  function Run(cur: Bitmask, mask: Bitmask, reqs: seq<bool>): Bitmask
    decreases |reqs|
  {
    if reqs == [] then cur else Run(Step(cur, mask, reqs[0]), mask, reqs[1..])
  }

  /** Running `a` and then `b` is running `a + b`. */
  lemma {:induction false} RunAppend(cur: Bitmask, mask: Bitmask, a: seq<bool>, b: seq<bool>)
    ensures Run(cur, mask, a + b) == Run(Run(cur, mask, a), mask, b)
    decreases |a|
  {
    if a == [] {
      assert a + b == b;
    } else {
      assert (a + b)[0] == a[0];
      assert (a + b)[1..] == a[1..] + b;
      RunAppend(Step(cur, mask, a[0]), mask, a[1..], b);
    }
  }

  /** One more request after a series is one more step. */
  lemma RunSnoc(cur: Bitmask, mask: Bitmask, reqs: seq<bool>, b: bool)
    ensures Run(cur, mask, reqs + [b]) == Step(Run(cur, mask, reqs), mask, b)
  {
    RunAppend(cur, mask, reqs, [b]);
    assert [b][1..] == [];
  }

  /** However many requests are made, the bits outside the 2G mask stay those of the start. */
  lemma {:induction false} RunKeepsOtherBits(cur: Bitmask, mask: Bitmask, reqs: seq<bool>)
    ensures Run(cur, mask, reqs) - mask == cur - mask
    decreases |reqs|
  {
    if reqs != [] {
      RunKeepsOtherBits(Step(cur, mask, reqs[0]), mask, reqs[1..]);
    }
  }

  /** After any series of requests the 2G part of the bitmask is the starting one, all of the mask,
      or none of it: the switch never produces a new partial set of 2G bits. */
  lemma {:induction false} RunTwoGBitsAllOrNone(cur: Bitmask, mask: Bitmask, reqs: seq<bool>)
    ensures var m := Run(cur, mask, reqs) * mask; m == cur * mask || m == mask || m == {}
    decreases |reqs|
  {
    if reqs != [] {
      var next := Step(cur, mask, reqs[0]);
      assert next * mask == cur * mask || next * mask == mask || next * mask == {};
      RunTwoGBitsAllOrNone(next, mask, reqs[1..]);
    }
  }

  /** After a non-empty series of requests the 2G state is the last one requested. */
  lemma {:induction false} RunFollowsLastRequest(cur: Bitmask, mask: Bitmask, reqs: seq<bool>)
    requires mask != {}
    requires reqs != []
    ensures TwoGOn(Run(cur, mask, reqs), mask) == reqs[|reqs| - 1]
    decreases |reqs|
  {
    if |reqs| == 1 {
      StepReachesRequest(cur, mask, reqs[0]);
    } else {
      RunFollowsLastRequest(Step(cur, mask, reqs[0]), mask, reqs[1..]);
    }
  }

  /** Repeating the last request changes nothing. */
  lemma RunRepeatIsNoOp(cur: Bitmask, mask: Bitmask, reqs: seq<bool>, b: bool)
    requires mask != {}
    ensures Run(cur, mask, reqs + [b, b]) == Run(cur, mask, reqs + [b])
  {
    assert reqs + [b, b] == (reqs + [b]) + [b];
    RunSnoc(cur, mask, reqs + [b], b);
    RunSnoc(cur, mask, reqs, b);
    StepReachesRequest(Run(cur, mask, reqs), mask, b);
  }

  /** How many of the requests differ from the state before them, starting from state `on`. */
  function Flips(on: bool, reqs: seq<bool>): (n: nat)
    ensures n <= |reqs|
    decreases |reqs|
  {
    if reqs == [] then 0
    else (if reqs[0] != on then 1 else 0) + Flips(reqs[0], reqs[1..])
  }

  /** How many writes (and so metrics events) a series of requests causes. */
  function Writes(cur: Bitmask, mask: Bitmask, reqs: seq<bool>): nat
    decreases |reqs|
  {
    if reqs == [] then 0
    else (if Toggle(true, cur, mask, reqs[0]).Written? then 1 else 0) + Writes(Step(cur, mask, reqs[0]), mask, reqs[1..])
  }

  /** One more request adds one write exactly when it decides to write. */
  lemma {:induction false} WritesSnoc(cur: Bitmask, mask: Bitmask, reqs: seq<bool>, b: bool)
    ensures Writes(cur, mask, reqs + [b]) ==
      Writes(cur, mask, reqs) + if Toggle(true, Run(cur, mask, reqs), mask, b).Written? then 1 else 0
    decreases |reqs|
  {
    if reqs == [] {
      assert reqs + [b] == [b];
      assert [b][1..] == [];
    } else {
      assert (reqs + [b])[0] == reqs[0];
      assert (reqs + [b])[1..] == reqs[1..] + [b];
      WritesSnoc(Step(cur, mask, reqs[0]), mask, reqs[1..], b);
    }
  }

  /** A series of requests writes once per request that flips the switch: the first request
      writes when it differs from the starting 2G state, every later one when it differs from
      the request before it. */
  lemma {:induction false} WritesCountFlips(cur: Bitmask, mask: Bitmask, reqs: seq<bool>)
    requires mask != {}
    ensures Writes(cur, mask, reqs) == Flips(TwoGOn(cur, mask), reqs)
    decreases |reqs|
  {
    if reqs != [] {
      StepReachesRequest(cur, mask, reqs[0]);
      WritesCountFlips(Step(cur, mask, reqs[0]), mask, reqs[1..]);
    }
  }

  /** Two requests in a row. */
  lemma RunTwo(cur: Bitmask, mask: Bitmask, x: bool, y: bool)
    ensures Run(cur, mask, [x, y]) == Step(Step(cur, mask, x), mask, y)
  {
    var first := Step(cur, mask, x);
    assert [x, y][1..] == [y];
    assert Run(cur, mask, [x, y]) == Run(first, mask, [y]);
    assert [y][1..] == [];
    assert Run(first, mask, [y]) == Run(Step(first, mask, y), mask, []);
  }

  /** Enabling and then disabling restores the start exactly when the start has no 2G bit:
      from a partial or full set of 2G bits, enabling does nothing and disabling clears them all. */
  lemma EnableThenDisableRestoresIff(cur: Bitmask, mask: Bitmask)
    ensures Run(cur, mask, [true, false]) == cur <==> cur * mask == {}
  {
    RunTwo(cur, mask, true, false);
    if cur * mask == {} {
      forall i | i in cur
        ensures i !in mask
      {
        assert i !in cur * mask;
      }
      assert (cur + mask) - mask == cur;
      if mask == {} {
        assert cur + mask == cur;
      } else {
        NewAllowedTypesReachesRequest(cur, mask, true);
      }
    } else {
      var b :| b in cur * mask;
      assert b !in cur - mask;
    }
  }

  /** Disabling and then enabling restores the start exactly when the start holds every 2G bit. */
  lemma DisableThenEnableRestoresIff(cur: Bitmask, mask: Bitmask)
    ensures Run(cur, mask, [false, true]) == cur <==> mask <= cur
  {
  }
}
