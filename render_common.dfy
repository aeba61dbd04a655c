// What the two renderer revisions have in common: the LibOVR render API
// configuration, the pixel-density clamp, the results of the two SDK calls made
// while configuring GL, and the "force zero IPD" rewrite of the eye offsets.
module RenderConfig {
  import opened Ovr
  import opened Wrappers

  /** The native window the SDK renders to (X11 display and window, or HWND). */
  datatype WindowHandle = WindowHandle(display: nat, window: nat)

  /**
   * ovrGLConfig: the render-target size set from the display resolution, no
   * multisampling, and the window once one has been configured.
   */
  datatype ApiConfig = ApiConfig(renderTargetW: int, renderTargetH: int, multisample: nat, window: Option<WindowHandle>)

  /** ovrHmd_GetFovTextureSize(device, eye, fov, pixelDensity). */
  type FovTextureSize = (Eye, FovPort, real) -> Size

  /** ovrHmd_ConfigureRendering(device, apiConfig, distortionCaps, fovs): the two eye render descriptions. */
  type RenderingConfigurator = (ApiConfig, Mask, seq<FovPort>) -> (EyeRenderDesc, EyeRenderDesc)

  /**
   * `density < min ? min : density > max ? max : density`. When min <= max the
   * result lies in [min, max], and a density already in range is kept.
   */
  function Clamp(density: real, min: real, max: real): (r: real)
    ensures min <= max ==> min <= r <= max
    ensures min <= density <= max ==> r == density
    ensures density < min ==> r == min
    ensures min <= density && max < density ==> r == max
  {
    if density < min then min else if density > max then max else density
  }

  /** Clamping a clamped density changes nothing. */
  lemma ClampIdempotent(density: real, min: real, max: real)
    requires min <= max
    ensures Clamp(Clamp(density, min, max), min, max) == Clamp(density, min, max)
  {
  }

  /**
   * The pixel-density table of the renderer tests, for any bounds it is
   * consistent with (the bounds themselves are defined outside the modelled files).
   */
  lemma ClampTestTable(min: real, max: real)
    requires 0.0 <= min <= 0.5 && 3.0 <= max <= 8.0
    ensures Clamp(0.0, min, max) == min && Clamp(8.0, min, max) == max
    ensures Clamp(1.0, min, max) == 1.0 && Clamp(0.5, min, max) == 0.5
    ensures Clamp(2.0, min, max) == 2.0 && Clamp(3.0, min, max) == 3.0
    ensures Clamp(min - 0.05, min, max) == min && Clamp(max + 0.05, min, max) == max
  {
  }

  /** The eye render descriptions as stored after configuration, indexed by eye. */
  function RenderedDescs(descs: (EyeRenderDesc, EyeRenderDesc), forceZeroIPD: bool): (r: seq<EyeRenderDesc>)
    ensures |r| == 2
    ensures forceZeroIPD ==> forall i :: 0 <= i < 2 ==> r[i].viewAdjust == ZeroVector
    ensures forall i :: 0 <= i < 2 ==>
              r[i].fov == [descs.0, descs.1][i].fov
              && r[i].pixelsPerTanAngleX == [descs.0, descs.1][i].pixelsPerTanAngleX
              && r[i].pixelsPerTanAngleY == [descs.0, descs.1][i].pixelsPerTanAngleY
    ensures !forceZeroIPD ==> r == [descs.0, descs.1]
  {
    if forceZeroIPD then [descs.0.(viewAdjust := ZeroVector), descs.1.(viewAdjust := ZeroVector)]
    else [descs.0, descs.1]
  }
}
