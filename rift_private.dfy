// QOculusRiftPrivate (src/oculusvr/qoculusrift_p.cpp): the device handle of the
// current revision. It opens a device or falls back to a debug device, normalises
// the descriptor's sensor capabilities, and keeps the two enabled-capability
// masks that every toggle reads and writes.
module OculusRiftPrivate {
  import opened Ovr
  import opened Wrappers
  import opened Capabilities
  import opened LibOvrLifetime

  /** `isHmdCap`: the four device-level capabilities, matched as exact values. */
  predicate IsHmdCap(cap: Mask)
  {
    cap == HmdCapNoVSync || cap == HmdCapLowPersistence
    || cap == HmdCapLatencyTest || cap == HmdCapDynamicPrediction
  }

  /** `isTrackingCap`: the three tracking capabilities, matched as exact values. */
  predicate IsTrackingCap(cap: Mask)
  {
    cap == SensorCapOrientation || cap == SensorCapPosition || cap == SensorCapYawCorrection
  }

  /** No value is both; every capability the two predicates accept is a single bit. */
  lemma CapClassesDisjoint(cap: Mask)
    ensures !(IsHmdCap(cap) && IsTrackingCap(cap))
    ensures IsHmdCap(cap) || IsTrackingCap(cap) ==> SingleBit(cap)
  {
  }

  /** `enabledCaps_`: the device-level and the tracking mask. */
  datatype EnabledCaps = EnabledCaps(hmd: Mask, tracking: Mask)
  {
    /**
     * `isCapEnabled`: true iff cap is a device-level capability whose bits are all
     * in `hmd`, or a tracking capability whose bits are all in `tracking`.
     */
    predicate IsCapEnabled(cap: Mask)
    {
      if IsHmdCap(cap) then HasAll(hmd, cap)
      else if IsTrackingCap(cap) then HasAll(tracking, cap)
      else false
    }

    /**
     * The masks after `setCapEnabled(cap, enable)`: unchanged when the request
     * matches the current state or names no known capability; otherwise exactly
     * cap's bits are written in the mask that owns cap.
     */
    function WithCap(cap: Mask, enable: bool): (r: EnabledCaps)
      ensures enable == IsCapEnabled(cap) ==> r == this
      ensures IsHmdCap(cap) || IsTrackingCap(cap) ==> r.IsCapEnabled(cap) == enable
      ensures !IsHmdCap(cap) ==> r.hmd == hmd
      ensures !IsTrackingCap(cap) ==> r.tracking == tracking
      ensures r.hmd - cap == hmd - cap && r.tracking - cap == tracking - cap
    {
      if enable == IsCapEnabled(cap) then this
      else if IsHmdCap(cap) then this.(hmd := WriteBits(hmd, cap, enable))
      else if IsTrackingCap(cap) then this.(tracking := WriteBits(tracking, cap, enable))
      else this
    }
  }

  /**
   * The query reads only the mask that owns cap: replacing the other mask never
   * changes the answer, and a value that is no known capability is never enabled.
   */
  lemma IsCapEnabledReadsOwningMask(caps: EnabledCaps, cap: Mask, other: Mask)
    ensures IsHmdCap(cap) ==> caps.(tracking := other).IsCapEnabled(cap) == caps.IsCapEnabled(cap)
    ensures IsTrackingCap(cap) ==> caps.(hmd := other).IsCapEnabled(cap) == caps.IsCapEnabled(cap)
    ensures !IsHmdCap(cap) && !IsTrackingCap(cap) ==> !caps.IsCapEnabled(cap)
  {
  }

  /** Enabling more bits in either mask never turns a capability's answer off. */
  lemma IsCapEnabledMonotone(caps: EnabledCaps, more: EnabledCaps, cap: Mask)
    requires caps.hmd <= more.hmd && caps.tracking <= more.tracking
    ensures caps.IsCapEnabled(cap) ==> more.IsCapEnabled(cap)
  {
  }

  /** Toggling one known capability leaves the answer for every other known capability alone. */
  lemma WithCapIndependent(caps: EnabledCaps, cap: Mask, other: Mask, enable: bool)
    requires IsHmdCap(cap) || IsTrackingCap(cap)
    requires other != cap
    ensures caps.WithCap(cap, enable).IsCapEnabled(other) == caps.IsCapEnabled(other)
  {
  }

  /** A repeated request is a no-op. */
  lemma WithCapIdempotent(caps: EnabledCaps, cap: Mask, enable: bool)
    ensures caps.WithCap(cap, enable).WithCap(cap, enable) == caps.WithCap(cap, enable)
  {
  }

  /** A debug device is created when one is forced or when ovrHmd_Create returns no handle. */
  function IsDebugDevice(forceDebugDevice: bool, created: Option<HmdDesc>): bool
  {
    forceDebugDevice || created.None?
  }

  /**
   * `descriptor_.SensorCaps` after construction: zero for a debug device; on a
   * device with tracking that is a DK1, Position and YawCorrection removed;
   * otherwise what LibOVR reported.
   */
  function NormalisedSensorCaps(reported: Mask, isDebug: bool, hmdType: HmdType): (r: Mask)
    ensures r <= reported
    ensures isDebug ==> r == {}
    ensures !isDebug && hmdType == DK1 ==>
              !HasAll(r, SensorCapPosition) && !HasAll(r, SensorCapYawCorrection)
              && r + SensorCapPosition + SensorCapYawCorrection == reported + SensorCapPosition + SensorCapYawCorrection
    ensures !isDebug && hmdType != DK1 ==> r == reported
  {
    var caps := if isDebug then {} else reported;
    if !isDebug && hmdType == DK1 then caps - SensorCapPosition - SensorCapYawCorrection
    else caps
  }

  /** The starting device-level mask: every supported capability except NoVSync, so vsync starts on. */
  function InitialHmdCaps(supported: Mask): (r: Mask)
    ensures !HasAll(r, HmdCapNoVSync)
    ensures r <= supported
    ensures r + HmdCapNoVSync == supported + HmdCapNoVSync
  {
    supported - HmdCapNoVSync
  }

  /** Right after construction vsync is on (NoVSync is not enabled) whatever the device supports. */
  lemma VsyncStartsEnabled(supported: Mask, tracking: Mask)
    ensures !EnabledCaps(InitialHmdCaps(supported), tracking).IsCapEnabled(HmdCapNoVSync)
  {
  }

  /** QOculusRiftPrivate. */
  class RiftDevice {
    const isDebugDevice: bool
    /** The descriptor, with SensorCaps normalised by the constructor. */
    const descriptor: HmdDesc
    var enabledCaps: EnabledCaps
    /** The calls made on the device handle, oldest first. */
    var deviceCalls: seq<DeviceCall>

    /** `trackingAvailable`: a debug device has none; a real one is assumed to. */
    function TrackingAvailable(): bool
    {
      !isDebugDevice
    }

    /**
     * Opens device `index`. `created` is what ovrHmd_Create + ovrHmd_GetDesc
     * yield (consulted only when no debug device is forced) and `debugDevice`
     * what ovrHmd_CreateDebug(DK1) + ovrHmd_GetDesc yield. A rejected index and a
     * failed debug fallback are fatal, hence the preconditions.
     */
    constructor (counter: InstanceCounter, index: nat, forceDebugDevice: bool, detected: int,
                 created: Option<HmdDesc>, debugDevice: Option<HmdDesc>)
      requires counter.Valid()
      requires index < 0x1_0000_0000 && IndexAccepted(index, detected)
      requires IsDebugDevice(forceDebugDevice, created) ==> debugDevice.Some?
      modifies counter
      ensures counter.Valid() && counter.count == old(counter.count) + 1
      ensures counter.calls == old(counter.calls) + (if old(counter.count) == 0 then [Initialize] else [])
      ensures isDebugDevice == IsDebugDevice(forceDebugDevice, created)
      ensures var reported := if isDebugDevice then debugDevice.value else created.value;
              descriptor == reported.(sensorCaps := NormalisedSensorCaps(reported.sensorCaps, isDebugDevice, reported.hmdType))
      ensures enabledCaps == EnabledCaps(InitialHmdCaps(descriptor.hmdCaps), descriptor.sensorCaps)
      ensures deviceCalls == [SetEnabledCaps(enabledCaps.hmd)]
                             + SensorCalls(TrackingAvailable(), descriptor.sensorCaps, enabledCaps.tracking)
    {
      counter.Acquire();
      var debug := IsDebugDevice(forceDebugDevice, created);
      var reported := if debug then debugDevice.value else created.value;
      isDebugDevice := debug;
      descriptor := reported.(sensorCaps := NormalisedSensorCaps(reported.sensorCaps, debug, reported.hmdType));
      enabledCaps := EnabledCaps({}, {});
      deviceCalls := [];
      new;
      enabledCaps := enabledCaps.(hmd := InitialHmdCaps(descriptor.hmdCaps));
      UpdateHmdCaps();
      enabledCaps := enabledCaps.(tracking := descriptor.sensorCaps);
      UpdateTrackingCaps();
    }

    /** `updateHmdCaps`: pushes the whole device-level mask. */
    method UpdateHmdCaps()
      modifies this`deviceCalls
      ensures deviceCalls == old(deviceCalls) + [SetEnabledCaps(enabledCaps.hmd)]
    {
      deviceCalls := deviceCalls + [SetEnabledCaps(enabledCaps.hmd)];
    }

    /** `updateTrackingCaps`: starts or stops the sensor for the current tracking mask. */
    method UpdateTrackingCaps()
      modifies this`deviceCalls
      ensures deviceCalls == old(deviceCalls) + SensorCalls(TrackingAvailable(), descriptor.sensorCaps, enabledCaps.tracking)
    {
      if TrackingAvailable() {
        if enabledCaps.tracking == {} {
          deviceCalls := deviceCalls + [StopSensor];
        } else {
          deviceCalls := deviceCalls + [StartSensor(descriptor.sensorCaps, enabledCaps.tracking)];
        }
      }
    }

    /** `resetTracking`: resets the sensor, only when tracking is available. */
    method ResetTracking()
      modifies this`deviceCalls
      ensures deviceCalls == old(deviceCalls) + (if TrackingAvailable() then [ResetSensor] else [])
      ensures isDebugDevice ==> deviceCalls == old(deviceCalls)
    {
      if TrackingAvailable() {
        deviceCalls := deviceCalls + [ResetSensor];
      }
    }

    /** `isCapEnabled`. */
    predicate IsCapEnabled(cap: Mask)
      reads this
    {
      enabledCaps.IsCapEnabled(cap)
    }

    /**
     * `setCapEnabled`: a request that matches the current state does nothing;
     * otherwise the owning mask is rewritten and pushed to the device.
     */
    method SetCapEnabled(cap: Mask, enable: bool)
      modifies this`enabledCaps, this`deviceCalls
      ensures enabledCaps == old(enabledCaps).WithCap(cap, enable)
      ensures deviceCalls == old(deviceCalls) +
                (if enable == old(enabledCaps).IsCapEnabled(cap) then []
                 else if IsHmdCap(cap) then [SetEnabledCaps(enabledCaps.hmd)]
                 else if IsTrackingCap(cap) then SensorCalls(TrackingAvailable(), descriptor.sensorCaps, enabledCaps.tracking)
                 else [])
    {
      if enable != IsCapEnabled(cap) {
        if IsHmdCap(cap) {
          enabledCaps := enabledCaps.(hmd := WriteBits(enabledCaps.hmd, cap, enable));
          UpdateHmdCaps();
        } else if IsTrackingCap(cap) {
          enabledCaps := enabledCaps.(tracking := WriteBits(enabledCaps.tracking, cap, enable));
          UpdateTrackingCaps();
        }
      }
    }

    /** The destructor: destroys the handle, then releases LibOVR if this was the last device. */
    method Destroy(counter: InstanceCounter)
      requires counter.Valid() && counter.count > 0
      modifies this`deviceCalls, counter
      ensures deviceCalls == old(deviceCalls) + [DestroyDevice]
      ensures counter.Valid() && counter.count == old(counter.count) - 1
      ensures counter.calls == old(counter.calls) + (if old(counter.count) == 1 then [Shutdown] else [])
    {
      deviceCalls := deviceCalls + [DestroyDevice];
      counter.Release();
    }
  }

  /** A debug device starts with no tracking capability and never calls the sensor. */
  lemma DebugDeviceStartsUntracked(reported: HmdDesc)
    ensures NormalisedSensorCaps(reported.sensorCaps, true, reported.hmdType) == {}
    ensures SensorCalls(false, {}, {}) == []
  {
  }
}
