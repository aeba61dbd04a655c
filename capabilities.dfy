// Capability bookkeeping shared by both device revisions and both renderers:
// the "all bits of cap are set" query, the set-or-clear update, and the rule
// that decides which sensor call follows a change of the tracking mask.
module Capabilities {
  import opened Ovr

  /** `(mask & cap) == cap`: every bit of cap is set in mask. */
  predicate HasAll(mask: Mask, cap: Mask)
  {
    cap <= mask
  }

  /** A capability constant: exactly one bit set. */
  predicate SingleBit(cap: Mask)
  {
    |cap| == 1
  }

  /**
   * The `writeBit` update: `field | cap` when enabling, `field & ~cap` when
   * disabling. Exactly the bits of cap change, and they end up all set or all clear.
   */
  function WriteBits(field: Mask, cap: Mask, enable: bool): (r: Mask)
    ensures r - cap == field - cap
    ensures enable ==> cap <= r
    ensures !enable ==> r * cap == {}
  {
    if enable then field + cap else field - cap
  }

  /** After a write, the query answers what was written (a clear of no bits is still "all set"). */
  lemma WriteBitsThenQuery(field: Mask, cap: Mask, enable: bool)
    ensures HasAll(WriteBits(field, cap, enable), cap) == (enable || cap == {})
  {
    if !enable && cap != {} {
      var b :| b in cap;
      assert b !in WriteBits(field, cap, enable);
    }
  }

  /** Writing the state a single-bit capability already has changes nothing. */
  lemma WriteBitsMatchingIsNoOp(field: Mask, cap: Mask, enable: bool)
    requires SingleBit(cap)
    requires HasAll(field, cap) == enable
    ensures WriteBits(field, cap, enable) == field
  {
    var b :| b in cap;
    assert cap == {b} by {
      if c :| c in cap && c != b {
        assert {b, c} <= cap;
        assert |{b, c}| == 2;
        SubsetCardinality({b, c}, cap);
      }
    }
  }

  lemma SubsetCardinality(a: set<nat>, b: set<nat>)
    requires a <= b
    ensures |a| <= |b|
  {
    assert b == a + (b - a);
  }

  /** Writing twice is writing once. */
  lemma WriteBitsIdempotent(field: Mask, cap: Mask, enable: bool)
    ensures WriteBits(WriteBits(field, cap, enable), cap, enable) == WriteBits(field, cap, enable)
  {
  }

  /**
   * `updateTrackingCaps`: the sensor call made after the tracking mask changed.
   * Nothing is called when tracking is unavailable; otherwise the sensor is
   * stopped when no tracking capability is enabled and started with the
   * supported and enabled masks when some are.
   */
  function SensorCalls(trackingAvailable: bool, supported: Mask, enabled: Mask): (calls: seq<DeviceCall>)
    ensures !trackingAvailable ==> calls == []
    ensures trackingAvailable ==> |calls| == 1
    ensures forall k :: 0 <= k < |calls| ==> (calls[k].StopSensor? <==> enabled == {})
    ensures forall k :: 0 <= k < |calls| && enabled != {} ==> calls[k] == StartSensor(supported, enabled)
  {
    if !trackingAvailable then []
    else if enabled == {} then [StopSensor]
    else [StartSensor(supported, enabled)]
  }

  /**
   * The device-index check both revisions make before opening a device: index 0
   * is always accepted, any other index must be below ovrHmd_Detect()'s count,
   * compared as `unsigned int` (so a negative count wraps to a huge one).
   */
  function IndexAccepted(index: nat, detected: int): (ok: bool)
    requires index < 0x1_0000_0000
    ensures index == 0 ==> ok
    ensures 0 <= detected < 0x1_0000_0000 ==> (ok <==> index == 0 || index < detected)
    ensures detected < 0 && detected >= -0x1_0000_0000 ==> (ok <==> index == 0 || index < detected + 0x1_0000_0000)
  {
    index == 0 || index < detected % 0x1_0000_0000
  }
}
