// QOculusRift as implemented in src/oculusvr/qoculusrift.cpp: the earlier device
// revision that both renderers own. It enables every supported capability at
// construction, reports no tracking of any kind, and pushes the capability masks
// to the device whenever a toggle is called.
module OculusRift {
  import opened Ovr
  import opened Wrappers
  import opened Capabilities
  import opened LibOvrLifetime

  /** The refresh rate in Hz that `refreshRate` reports for a device type. */
  function RefreshRate(hmdType: HmdType): (hz: nat)
    ensures hz == 60 || hz == 75
    ensures hz == 75 <==> hmdType == DK2
  {
    match hmdType
    case DK2 => 75
    case _ => 60
  }

  /** The debug device is a DK1 stand-in, so the refresh-rate test expects 60 Hz. */
  lemma DebugDeviceRefreshRate()
    ensures RefreshRate(DK1) == 60 && RefreshRate(Other) == 60
  {
  }

  /** `supportedTrackingCapabilities`: this revision reports none, whatever the device. */
  const SupportedTrackingCaps: Mask := {}

  /** The squared norm of a quaternion; a rotation has norm 1. */
  function NormSquared(q: Quaternion): real
  {
    q.w * q.w + q.x * q.x + q.y * q.y + q.z * q.z
  }

  /** The identity rotation. */
  const IdentityRotation: Quaternion := Quaternion(1.0, 0.0, 0.0, 0.0)

  /** The Hamilton product: composing rotation `q` after rotation `p`. */
  function Compose(q: Quaternion, p: Quaternion): Quaternion
  {
    Quaternion(q.w * p.w - q.x * p.x - q.y * p.y - q.z * p.z,
               q.w * p.x + q.x * p.w + q.y * p.z - q.z * p.y,
               q.w * p.y - q.x * p.z + q.y * p.w + q.z * p.x,
               q.w * p.z + q.x * p.y - q.y * p.x + q.z * p.w)
  }

  /** The inverse rotation of a unit quaternion. */
  function Conjugate(q: Quaternion): Quaternion
  {
    Quaternion(q.w, -q.x, -q.y, -q.z)
  }

  /** `headOrientation` as written: the zero quaternion on both branches. */
  function HeadOrientationAsWritten(): Quaternion
  {
    Quaternion(0.0, 0.0, 0.0, 0.0)
  }

  /**
   * The value returned as written is not a rotation at all: its norm is 0, and
   * it differs from the identity the device test expects with tracking off.
   */
  lemma HeadOrientationAsWrittenIsNotARotation()
    ensures NormSquared(HeadOrientationAsWritten()) == 0.0
    ensures HeadOrientationAsWritten() != IdentityRotation
  {
  }

  /**
   * `headOrientation` as evidently intended: with orientation tracking
   * unavailable the head has not turned, i.e. the identity rotation, which is a
   * unit quaternion that its own conjugate leaves unchanged and that, composed
   * with any rotation on either side, gives that rotation back.
   */
  function HeadOrientation(): (q: Quaternion)
    ensures NormSquared(q) == 1.0
    ensures Conjugate(q) == q
    ensures forall p :: Compose(q, p) == p && Compose(p, q) == p
    ensures q == IdentityRotation
  {
    Quaternion(1.0, 0.0, 0.0, 0.0)
  }

  /** `headPosition`: the origin, tracked or not. */
  const HeadPosition: Vector3 := ZeroVector

  /** QOculusRift. */
  class Rift {
    const descriptor: HmdDesc
    var enabledHmdCaps: Mask
    var enabledTrackingCaps: Mask
    var enabledDistortionCaps: Mask
    /** The calls made on the device handle, oldest first. */
    var deviceCalls: seq<DeviceCall>

    /**
     * Opens device `index`. `created` is what ovrHmd_Create + ovrHmd_GetDesc yield
     * and `debugDevice` what ovrHmd_CreateDebug(DK1) + ovrHmd_GetDesc yield. A
     * rejected index, a failed debug fallback and a refused sensor start are
     * fatal, hence the preconditions (the sensor is never started here, since
     * the tracking mask starts empty).
     */
    constructor (counter: InstanceCounter, index: nat, detected: int,
                 created: Option<HmdDesc>, debugDevice: Option<HmdDesc>)
      requires counter.Valid()
      requires index < 0x1_0000_0000 && IndexAccepted(index, detected)
      requires created.None? ==> debugDevice.Some?
      modifies counter
      ensures counter.Valid() && counter.count == old(counter.count) + 1
      ensures counter.calls == old(counter.calls) + (if old(counter.count) == 0 then [Initialize] else [])
      ensures descriptor == if created.Some? then created.value else debugDevice.value
      ensures enabledHmdCaps == descriptor.hmdCaps
      ensures enabledTrackingCaps == SupportedTrackingCaps
      ensures enabledDistortionCaps == descriptor.distortionCaps
      ensures deviceCalls == [SetEnabledCaps(descriptor.hmdCaps), StopSensor]
    {
      counter.Acquire();
      descriptor := if created.Some? then created.value else debugDevice.value;
      enabledHmdCaps, enabledTrackingCaps, enabledDistortionCaps := {}, {}, {};
      deviceCalls := [];
      new;
      enabledHmdCaps := SupportedHmdCaps();
      UpdateHmdCapabilities();
      enabledTrackingCaps := SupportedTrackingCaps;
      UpdateTrackingCapabilities();
      enabledDistortionCaps := SupportedDistortionCaps();
    }

    /** The destructor: destroys the handle, then releases LibOVR if this was the last device. */
    method Destroy(counter: InstanceCounter)
      requires counter.Valid() && counter.count > 0
      modifies this`deviceCalls, counter
      ensures deviceCalls == old(deviceCalls) + [DestroyDevice]
      ensures counter.Valid() && counter.count == old(counter.count) - 1
      ensures counter.calls == old(counter.calls) + (if old(counter.count) == 1 then [Shutdown] else [])
    {
      deviceCalls := deviceCalls + [DestroyDevice];
      counter.Release();
    }

    function SupportedHmdCaps(): Mask
      reads this
    {
      descriptor.hmdCaps
    }

    function SupportedDistortionCaps(): Mask
      reads this
    {
      descriptor.distortionCaps
    }

    function DeviceRefreshRate(): nat
      reads this
    {
      RefreshRate(descriptor.hmdType)
    }

    /** `updateHmdCapabilities`: pushes the enabled device-level mask. */
    method UpdateHmdCapabilities()
      modifies this`deviceCalls
      ensures deviceCalls == old(deviceCalls) + [SetEnabledCaps(enabledHmdCaps)]
    {
      deviceCalls := deviceCalls + [SetEnabledCaps(enabledHmdCaps)];
    }

    /**
     * `updateTrackingCapabilities`: stops the sensor when no tracking capability
     * is enabled, otherwise starts it (a refused start is fatal). Unlike the
     * private revision it does not ask whether tracking is available.
     */
    method UpdateTrackingCapabilities()
      modifies this`deviceCalls
      ensures deviceCalls == old(deviceCalls) + SensorCalls(true, SupportedTrackingCaps, enabledTrackingCaps)
    {
      if enabledTrackingCaps == {} {
        deviceCalls := deviceCalls + [StopSensor];
      } else {
        deviceCalls := deviceCalls + [StartSensor(SupportedTrackingCaps, enabledTrackingCaps)];
      }
    }

    // The tracking queries of this revision are stubs: nothing is available and
    // therefore nothing is enabled.

    predicate OrientationTrackingAvailable()
    {
      false
    }

    predicate OrientationTrackingEnabled()
    {
      false
    }

    predicate PositionalTrackingAvailable()
    {
      false
    }

    predicate PositionalTrackingEnabled()
    {
      false
    }

    predicate EyeTrackingAvailable()
    {
      false
    }

    predicate EyeTrackingEnabled()
    {
      false
    }

    /** `eyePosition`: the origin, tracked or not. */
    function EyePosition(): (int, int)
    {
      (0, 0)
    }

    /**
     * `enableOrientationTracking`, `enablePositionalTracking` and
     * `enableEyeTracking` only act when their kind of tracking is available,
     * which it never is, so they change nothing and call nothing.
     */
    method EnableOrientationTracking(enable: bool)
      modifies this
      ensures unchanged(this)
      ensures !OrientationTrackingEnabled()
    {
    }

    method EnablePositionalTracking(enable: bool)
      modifies this
      ensures unchanged(this)
      ensures !PositionalTrackingEnabled()
    {
    }

    method EnableEyeTracking(enable: bool)
      modifies this
      ensures unchanged(this)
      ensures !EyeTrackingEnabled()
    {
    }

    // The device-level toggles are stubs too: each ignores its argument, reports
    // false, and re-sends the enabled masks unchanged.

    predicate VsyncEnabled()
    {
      false
    }

    predicate LowPersistenceEnabled()
    {
      false
    }

    predicate LatencyTestingEnabled()
    {
      false
    }

    predicate DynamicPredictionEnabled()
    {
      false
    }

    predicate YawCorrectionEnabled()
    {
      false
    }

    /** `enableVsync`, `enableLowPersistence`, `enableLatencyTesting`, `enableDynamicPrediction`. */
    method EnableHmdCapability(enable: bool)
      modifies this`deviceCalls
      ensures deviceCalls == old(deviceCalls) + [SetEnabledCaps(enabledHmdCaps)]
    {
      UpdateHmdCapabilities();
    }

    /** `enableYawCorrection`. */
    method EnableYawCorrection(enable: bool)
      modifies this`deviceCalls
      ensures deviceCalls == old(deviceCalls) + SensorCalls(true, SupportedTrackingCaps, enabledTrackingCaps)
    {
      UpdateTrackingCapabilities();
    }

    /** The distortion getters report false and the setters do nothing. */
    predicate DistortionToggleEnabled()
    {
      false
    }
  }

  /**
   * In every state of every device of this revision, no kind of tracking is
   * available or enabled, the toggles all read false, and the head and eye
   * positions are the origin.
   */
  lemma TrackingNeverAvailable(rift: Rift)
    ensures !rift.OrientationTrackingAvailable() && !rift.OrientationTrackingEnabled()
    ensures !rift.PositionalTrackingAvailable() && !rift.PositionalTrackingEnabled()
    ensures !rift.EyeTrackingAvailable() && !rift.EyeTrackingEnabled()
    ensures !rift.VsyncEnabled() && !rift.LowPersistenceEnabled() && !rift.LatencyTestingEnabled()
    ensures !rift.DynamicPredictionEnabled() && !rift.YawCorrectionEnabled() && !rift.DistortionToggleEnabled()
    ensures HeadPosition == ZeroVector && rift.EyePosition() == (0, 0)
  {
  }

  /**
   * Since the supported tracking mask is empty, a new device's first sensor call
   * is StopSensor, and the same holds after any later tracking toggle as long as
   * the enabled tracking mask stays empty.
   */
  lemma SensorStaysStopped(enabled: Mask)
    requires enabled == SupportedTrackingCaps
    ensures SensorCalls(true, SupportedTrackingCaps, enabled) == [StopSensor]
  {
  }
}
