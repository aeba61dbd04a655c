// QOculusRiftStereoRendererPrivate (src/oculusvr/qoculusriftstereorenderer_p.cpp):
// the first renderer revision's configuration state. Two dirty flags say whether
// the framebuffer and the eye render descriptions must be rebuilt before the next
// frame; `configureGL` rebuilds what is dirty, framebuffer first, and the eye
// cameras memoise their projection matrices.
module OculusRiftStereoRendererPrivate {
  import opened Ovr
  import opened Wrappers
  import opened Capabilities
  import opened Framebuffer
  import opened RenderConfig
  import opened StereoEyeCamera
  import opened OculusRift

  /** The framebuffer is rebuilt when there is none, or its size or format differs. */
  predicate NeedsNewFbo(fbo: Option<Fbo>, size: Size, format: FboFormat)
  {
    fbo.None? || fbo.value.size != size || fbo.value.format != format
  }

  /** QOculusRiftStereoRendererPrivate. */
  class StereoRendererPrivate {
    /** The device, built from the renderer's index and debug flag. */
    const display: Rift
    const fboFormat: FboFormat
    var fbo: Option<Fbo>
    var fboChanged: bool
    var apiConfig: ApiConfig
    const eyeTextureConfigs: array<TextureConfig>
    const eyeRenderConfigs: array<EyeRenderDesc>
    /** The two eye cameras, owned by value in the source: their identities never change. */
    const eyeCameras: seq<EyeCamera>
    const eyeFovs: seq<FovPort>
    var eyeRenderConfigsChanged: bool
    var distortionCaps: Mask
    var pixelDensity: real
    const forceZeroIPD: bool
    /** `QOculusRiftStereoRenderer::minPixelDensity()` and `maxPixelDensity()`. */
    const minPixelDensity: real
    const maxPixelDensity: real

    /**
     * The per-eye arrays have one slot per eye and two distinct cameras, and
     * whenever a framebuffer exists each eye's texture header and camera hold
     * that eye's half of it.
     */
    ghost predicate Valid()
      reads this, eyeTextureConfigs, eyeCameras
    {
      eyeTextureConfigs.Length == 2 && eyeRenderConfigs.Length == 2 && |eyeCameras| == 2
      && eyeCameras[0] != eyeCameras[1]
      && |eyeFovs| == 2 && display.descriptor.WellFormed()
      && (fbo.Some? ==>
            forall i :: 0 <= i < 2 ==>
              eyeTextureConfigs[i] == EyeTextureConfig(i, fbo.value)
              && eyeCameras[i].viewport == EyeViewport(i, fbo.value.size))
    }

    /**
     * A new renderer: no framebuffer, both flags dirty, density 1, every supported
     * distortion capability enabled, the device's recommended fields of view, and
     * fresh cameras with dirty projections.
     */
    constructor (display: Rift, minPixelDensity: real, maxPixelDensity: real)
      requires display.descriptor.WellFormed()
      ensures Valid()
      ensures this.display == display
      ensures fbo == None && fboChanged && eyeRenderConfigsChanged
      ensures pixelDensity == 1.0 && !forceZeroIPD
      ensures distortionCaps == display.SupportedDistortionCaps()
      ensures eyeFovs == display.descriptor.defaultEyeFov
      ensures apiConfig == ApiConfig(display.descriptor.resolutionW, display.descriptor.resolutionH, 0, None)
      ensures this.minPixelDensity == minPixelDensity && this.maxPixelDensity == maxPixelDensity
      ensures fresh(eyeTextureConfigs) && fresh(eyeRenderConfigs)
      ensures fresh(eyeCameras[0]) && fresh(eyeCameras[1])
      ensures forall i :: 0 <= i < 2 ==> eyeCameras[i].orthoDistance == 0.8 && eyeCameras[i].ProjectionChanged()
    {
      this.display := display;
      fboFormat := RendererFboFormat;
      fbo := None;
      fboChanged := true;
      apiConfig := ApiConfig(display.descriptor.resolutionW, display.descriptor.resolutionH, 0, None);
      eyeTextureConfigs := new TextureConfig[2](_ => BlankTextureConfig);
      eyeRenderConfigs := new EyeRenderDesc[2](_ => BlankRenderDesc);
      var left := new EyeCamera();
      var right := new EyeCamera();
      eyeCameras := [left, right];
      eyeFovs := display.descriptor.defaultEyeFov;
      eyeRenderConfigsChanged := true;
      distortionCaps := display.SupportedDistortionCaps();
      pixelDensity := 1.0;
      forceZeroIPD := false;
      this.minPixelDensity := minPixelDensity;
      this.maxPixelDensity := maxPixelDensity;
    }

    /** `configureWindow`: records the native window and marks the render configuration dirty. */
    method ConfigureWindow(window: WindowHandle)
      modifies this`apiConfig, this`eyeRenderConfigsChanged
      ensures apiConfig == old(apiConfig).(window := Some(window))
      ensures eyeRenderConfigsChanged
    {
      apiConfig := apiConfig.(window := Some(window));
      eyeRenderConfigsChanged := true;
    }

    /**
     * `setPixelDensity`: a different density is clamped into range and marks the
     * framebuffer dirty; the same density changes nothing.
     */
    method SetPixelDensity(density: real)
      modifies this`pixelDensity, this`fboChanged
      ensures density == old(pixelDensity) ==> pixelDensity == old(pixelDensity) && fboChanged == old(fboChanged)
      ensures density != old(pixelDensity) ==>
                pixelDensity == Clamp(density, minPixelDensity, maxPixelDensity) && fboChanged
    {
      if density != pixelDensity {
        pixelDensity := Clamp(density, minPixelDensity, maxPixelDensity);
        fboChanged := true;
      }
    }

    /** `isDistortionCapabilityEnabled`: every bit of cap is enabled. */
    predicate IsDistortionCapabilityEnabled(cap: Mask)
      reads this
    {
      HasAll(distortionCaps, cap)
    }

    /**
     * `setDistortionCapabilityEnabled`: a request matching the current state does
     * nothing; otherwise exactly cap's bits are written and the render
     * configuration is marked dirty. Afterwards the query answers the request.
     */
    method SetDistortionCapabilityEnabled(cap: Mask, enable: bool)
      modifies this`distortionCaps, this`eyeRenderConfigsChanged
      ensures enable == old(IsDistortionCapabilityEnabled(cap)) ==>
                distortionCaps == old(distortionCaps) && eyeRenderConfigsChanged == old(eyeRenderConfigsChanged)
      ensures enable != old(IsDistortionCapabilityEnabled(cap)) ==>
                distortionCaps == WriteBits(old(distortionCaps), cap, enable) && eyeRenderConfigsChanged
      ensures IsDistortionCapabilityEnabled(cap) == (enable || cap == {})
    {
      if enable != IsDistortionCapabilityEnabled(cap) {
        distortionCaps := WriteBits(distortionCaps, cap, enable);
        eyeRenderConfigsChanged := true;
      }
      WriteBitsThenQuery(old(distortionCaps), cap, enable);
    }

    /** The framebuffer size for the current density and fields of view. */
    function TargetFboSize(fovTextureSize: FovTextureSize): Size
      requires |eyeFovs| == 2
      reads this
    {
      FboSize(fovTextureSize(Left, eyeFovs[0], pixelDensity), fovTextureSize(Right, eyeFovs[1], pixelDensity))
    }

    /**
     * The framebuffer block of `configureGL`: reallocate when needed, then give
     * each eye its half in both its texture header and its camera.
     */
    method RefreshFbo(fovTextureSize: FovTextureSize, newTexture: nat)
      requires Valid()
      modifies this`fbo, this`fboChanged, this`eyeRenderConfigsChanged, eyeTextureConfigs, eyeCameras
      ensures Valid() && !fboChanged && eyeRenderConfigsChanged
      ensures var size := TargetFboSize(fovTextureSize);
              var rebuilt := NeedsNewFbo(old(fbo), size, fboFormat);
              fbo == (if rebuilt then Some(Fbo(size, fboFormat, newTexture)) else old(fbo))
              && forall i :: 0 <= i < 2 ==>
                   eyeCameras[i].State() == (if rebuilt then old(eyeCameras[i].State()).(viewport := EyeViewport(i, size))
                                             else old(eyeCameras[i].State()))
                   && eyeTextureConfigs[i] == (if rebuilt then EyeTextureConfig(i, fbo.value) else old(eyeTextureConfigs[i]))
    {
      var size := TargetFboSize(fovTextureSize);
      if NeedsNewFbo(fbo, size, fboFormat) {
        var newFbo := Fbo(size, fboFormat, newTexture);
        fbo := Some(newFbo);
        for i := 0 to 2
          invariant fbo == Some(newFbo)
          invariant forall j :: 0 <= j < i ==>
                      eyeTextureConfigs[j] == EyeTextureConfig(j, newFbo)
                      && eyeCameras[j].State() == old(eyeCameras[j].State()).(viewport := EyeViewport(j, size))
          invariant forall j :: i <= j < 2 ==> eyeCameras[j].State() == old(eyeCameras[j].State())
        {
          eyeTextureConfigs[i] := EyeTextureConfig(i, newFbo);
          eyeCameras[i].viewport := EyeViewport(i, size);
        }
      }
      fboChanged := false;
      eyeRenderConfigsChanged := true;
    }

    /**
     * The render block of `configureGL`: store the descriptions the SDK computed
     * (with zero offsets when forced) and copy each eye's offset into its camera,
     * in the device's eye render order.
     */
    method RefreshRenderConfigs(configureRendering: RenderingConfigurator)
      requires Valid()
      modifies this`eyeRenderConfigsChanged, eyeRenderConfigs, eyeCameras
      ensures Valid() && !eyeRenderConfigsChanged
      ensures eyeRenderConfigs[..] == RenderedDescs(configureRendering(apiConfig, distortionCaps, eyeFovs), forceZeroIPD)
      ensures forall i :: 0 <= i < 2 ==>
                eyeCameras[i].State() ==
                  if EyeOf(i) in display.descriptor.eyeRenderOrder
                  then old(eyeCameras[i].State()).(viewAdjust := eyeRenderConfigs[i].viewAdjust)
                  else old(eyeCameras[i].State())
    {
      var descs := configureRendering(apiConfig, distortionCaps, eyeFovs);
      eyeRenderConfigs[0], eyeRenderConfigs[1] := descs.0, descs.1;
      if forceZeroIPD {
        for i := 0 to 2
          invariant forall j :: 0 <= j < i ==> eyeRenderConfigs[j] == [descs.0, descs.1][j].(viewAdjust := ZeroVector)
          invariant forall j :: i <= j < 2 ==> eyeRenderConfigs[j] == [descs.0, descs.1][j]
          invariant forall j :: 0 <= j < 2 ==> eyeCameras[j].State() == old(eyeCameras[j].State())
        {
          eyeRenderConfigs[i] := eyeRenderConfigs[i].(viewAdjust := ZeroVector);
        }
      }
      assert eyeRenderConfigs[..] == RenderedDescs(descs, forceZeroIPD);
      ghost var rendered := eyeRenderConfigs[..];
      var order := display.descriptor.eyeRenderOrder;
      for k := 0 to |order|
        invariant eyeRenderConfigs[..] == rendered
        invariant forall i :: 0 <= i < 2 ==>
                    eyeCameras[i].State() ==
                      if EyeOf(i) in order[..k]
                      then old(eyeCameras[i].State()).(viewAdjust := rendered[i].viewAdjust)
                      else old(eyeCameras[i].State())
      {
        var e := order[k].Index();
        eyeCameras[e].viewAdjust := eyeRenderConfigs[e].viewAdjust;
        assert order[..k + 1] == order[..k] + [order[k]];
      }
      assert order[..|order|] == order;
      eyeRenderConfigsChanged := false;
    }

    /**
     * `configureGL`: a dirty framebuffer is refreshed first, which always dirties
     * the render configuration; a dirty render configuration is then refreshed.
     * Afterwards neither flag is set.
     */
    method ConfigureGL(fovTextureSize: FovTextureSize, configureRendering: RenderingConfigurator, newTexture: nat)
      requires Valid()
      modifies this`fbo, this`fboChanged, this`eyeRenderConfigsChanged, eyeTextureConfigs, eyeRenderConfigs, eyeCameras
      ensures Valid() && !fboChanged && !eyeRenderConfigsChanged
      ensures var size := TargetFboSize(fovTextureSize);
              fbo == (if old(fboChanged) && NeedsNewFbo(old(fbo), size, fboFormat) then Some(Fbo(size, fboFormat, newTexture))
                      else old(fbo))
      ensures old(fboChanged) || old(eyeRenderConfigsChanged) ==>
                eyeRenderConfigs[..] == RenderedDescs(configureRendering(apiConfig, distortionCaps, eyeFovs), forceZeroIPD)
      ensures !old(fboChanged) && !old(eyeRenderConfigsChanged) ==>
                eyeRenderConfigs[..] == old(eyeRenderConfigs[..]) && fbo == old(fbo)
                && (forall i :: 0 <= i < 2 ==>
                      eyeCameras[i].State() == old(eyeCameras[i].State()) && eyeTextureConfigs[i] == old(eyeTextureConfigs[i]))
      ensures var rebuilt := old(fboChanged) && NeedsNewFbo(old(fbo), TargetFboSize(fovTextureSize), fboFormat);
              var refreshed := old(fboChanged) || old(eyeRenderConfigsChanged);
              forall i :: 0 <= i < 2 ==>
                eyeTextureConfigs[i] == (if rebuilt then EyeTextureConfig(i, fbo.value) else old(eyeTextureConfigs[i]))
                && eyeCameras[i].State() == old(eyeCameras[i].State()).(
                     viewport := if rebuilt then EyeViewport(i, fbo.value.size) else old(eyeCameras[i].viewport),
                     viewAdjust := if refreshed && EyeOf(i) in display.descriptor.eyeRenderOrder
                                   then eyeRenderConfigs[i].viewAdjust else old(eyeCameras[i].viewAdjust))
    {
      if fboChanged {
        RefreshFbo(fovTextureSize, newTexture);
      }
      if eyeRenderConfigsChanged {
        RefreshRenderConfigs(configureRendering);
      }
    }

    /**
     * `eyeCamera(eye, pose)`: the view is rebuilt from the eye's offset and the
     * head orientation on every call; the projection matrices are recomputed only
     * while the camera's projection is dirty, which then becomes clean. Nothing
     * else changes, and the other eye's camera is untouched.
     */
    method EyeCamera(eye: Eye, pose: Pose, planes: ClippingPlanes) returns (camera: EyeCamera)
      requires Valid()
      modifies eyeCameras[eye.Index()]
      ensures Valid()
      ensures camera == eyeCameras[eye.Index()]
      ensures var desc := eyeRenderConfigs[eye.Index()];
              var before := old(camera.State());
              camera.State() == before.(
                view := ViewMatrix(desc.viewAdjust, pose.orientation),
                perspective := if before.projectionChanged then EyePerspective(desc, planes.near, planes.far) else before.perspective,
                ortho := if before.projectionChanged then EyeOrtho(desc, planes.near, planes.far, before.orthoDistance) else before.ortho,
                projectionChanged := false)
    {
      camera := eyeCameras[eye.Index()];
      var desc := eyeRenderConfigs[eye.Index()];
      camera.view := ViewMatrix(desc.viewAdjust, pose.orientation);
      if camera.ProjectionChanged() {
        camera.perspective := EyePerspective(desc, planes.near, planes.far);
        camera.ortho := EyeOrtho(desc, planes.near, planes.far, camera.orthoDistance);
        camera.SetProjectionChanged(false);
      }
    }
  }
}
