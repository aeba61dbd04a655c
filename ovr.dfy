// The part of LibOVR's C API (OVR_CAPI.h, SDK 0.3) that the Qt binding relies on:
// capability bits, the device descriptor, poses, eye render descriptions, and the
// results of the vendor's matrix routines. The SDK itself is closed; here it is a
// vocabulary of values, and every call into it is either a parameter of the member
// that makes it or an event appended to a trace.
module Ovr {

  /**
   * An `unsigned int` capability mask, as the set of positions of its one bits
   * (bit b stands for the value 2^b). `a | b` is union, `a & ~b` is difference and
   * `(a & b) == b` is inclusion.
   */
  type Mask = set<nat>

  // ovrHmdCaps: device-level capabilities.
  const HmdCapLowPersistence: Mask := {7}      // 0x0080
  const HmdCapLatencyTest: Mask := {8}         // 0x0100
  const HmdCapDynamicPrediction: Mask := {9}   // 0x0200
  const HmdCapNoVSync: Mask := {12}            // 0x1000

  // ovrSensorCaps: tracking capabilities.
  const SensorCapOrientation: Mask := {4}      // 0x0010
  const SensorCapYawCorrection: Mask := {5}    // 0x0020
  const SensorCapPosition: Mask := {6}         // 0x0040

  // ovrDistortionCaps: post-render corrections.
  const DistortionCapChromatic: Mask := {0}    // 0x01
  const DistortionCapTimeWarp: Mask := {1}     // 0x02
  const DistortionCapVignette: Mask := {3}     // 0x08

  /** ovrHmdType. */
  datatype HmdType = HmdNone | DK1 | DKHD | CrystalCoveProto | DK2 | Other

  /** ovrEyeType; its two values index every per-eye array. */
  datatype Eye = Left | Right {
    function Index(): (i: nat)
      ensures i < 2
    {
      match this
      case Left => 0
      case Right => 1
    }
  }

  function EyeOf(i: nat): (e: Eye)
    requires i < 2
    ensures e.Index() == i
  {
    if i == 0 then Left else Right
  }

  /** ovrSizei as returned by ovrHmd_GetFovTextureSize: never negative. */
  datatype Size = Size(w: nat, h: nat)

  /** A QRect given by its top-left corner and its extent. */
  datatype Rect = Rect(x: int, y: int, width: int, height: int)

  datatype Vector3 = Vector3(x: real, y: real, z: real)

  const ZeroVector: Vector3 := Vector3(0.0, 0.0, 0.0)

  /** A quaternion in Qt's (scalar, x, y, z) order. */
  datatype Quaternion = Quaternion(w: real, x: real, y: real, z: real)

  datatype Pose = Pose(orientation: Quaternion, position: Vector3)

  /** ovrFovPort: the four half-angle tangents of an eye's field of view. */
  datatype FovPort = FovPort(up: real, down: real, left: real, right: real)

  /** ovrEyeRenderDesc as filled in by ovrHmd_ConfigureRendering. */
  datatype EyeRenderDesc = EyeRenderDesc(
    fov: FovPort,
    viewAdjust: Vector3,
    pixelsPerTanAngleX: real,
    pixelsPerTanAngleY: real)

  const BlankRenderDesc: EyeRenderDesc :=
    EyeRenderDesc(FovPort(0.0, 0.0, 0.0, 0.0), ZeroVector, 0.0, 0.0)

  /**
   * A 4x4 matrix, named by the routine that produced it. The numeric content of
   * these routines (QMatrix4x4::translate/rotate, ovrMatrix4f_Projection,
   * ovrMatrix4f_OrthoSubProjection) is floating-point vendor code; what the model
   * keeps is which routine ran and on which inputs.
   */
  datatype Matrix =
    | Identity
      /** translate(viewAdjust) * rotate(conjugate(orientation)) */
    | EyeView(viewAdjust: Vector3, orientation: Quaternion)
      /** ovrMatrix4f_Projection(fov, znear, zfar, rightHanded) */
    | Projection(fov: FovPort, znear: real, zfar: real, rightHanded: bool)
      /** ovrMatrix4f_OrthoSubProjection(perspective, scale, orthoDistance, offsetX) */
    | OrthoSubProjection(perspective: Matrix, scaleX: real, scaleY: real, orthoDistance: real, offsetX: real)

  /** The view transform both renderers build from an eye's offset and the head pose. */
  function ViewMatrix(viewAdjust: Vector3, orientation: Quaternion): Matrix
  {
    EyeView(viewAdjust, orientation)
  }

  /**
   * The orthographic scale `Vector2f(1) / PixelsPerTanAngleAtCenter`; a zero
   * component divides by zero in floating point, which the model leaves at zero.
   */
  function OrthoScale(pixelsPerTan: real): real
  {
    if pixelsPerTan == 0.0 then 0.0 else 1.0 / pixelsPerTan
  }

  /** The perspective matrix of an eye, as recomputed when its projection is dirty. */
  function EyePerspective(desc: EyeRenderDesc, znear: real, zfar: real): Matrix
  {
    Projection(desc.fov, znear, zfar, true)
  }

  /** The orthographic sub-projection derived from that perspective matrix. */
  function EyeOrtho(desc: EyeRenderDesc, znear: real, zfar: real, orthoDistance: real): Matrix
  {
    OrthoSubProjection(
      EyePerspective(desc, znear, zfar),
      OrthoScale(desc.pixelsPerTanAngleX), OrthoScale(desc.pixelsPerTanAngleY),
      orthoDistance, desc.viewAdjust.x)
  }

  /** ovrHmdDesc, reduced to the fields the binding reads. */
  datatype HmdDesc = HmdDesc(
    handle: nat,
    hmdType: HmdType,
    resolutionW: int,
    resolutionH: int,
    hmdCaps: Mask,
    sensorCaps: Mask,
    distortionCaps: Mask,
    defaultEyeFov: seq<FovPort>,
    eyeRenderOrder: seq<Eye>)
  {
    /** LibOVR fills both per-eye arrays with exactly two entries. */
    predicate WellFormed()
    {
      |defaultEyeFov| == 2 && |eyeRenderOrder| == 2
    }
  }

  /** A call the binding makes on an open device handle, in the order it makes them. */
  datatype DeviceCall =
    | SetEnabledCaps(hmdCaps: Mask)
    | StartSensor(supported: Mask, required: Mask)
    | StopSensor
    | ResetSensor
    | DestroyDevice
}
