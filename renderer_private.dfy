// QOculusRiftRendererPrivate (src/oculusvr/qoculusriftrenderer_p.cpp): the second
// renderer revision's configuration state. Framebuffer size and format changes
// are tracked apart, every framebuffer refresh reallocates, and each eye keeps a
// QStereoEyeParameters record and its own "projection changed" flag.
module OculusRiftRendererPrivate {
  import opened Ovr
  import opened Wrappers
  import opened Capabilities
  import opened Framebuffer
  import opened RenderConfig
  import opened StereoEyeParameters
  import opened OculusRift

  /** QOculusRiftRendererPrivate. */
  class RendererPrivate {
    const display: Rift
    const fboFormat: FboFormat
    var fbo: Option<Fbo>
    var fboSizeChanged: bool
    var fboFormatChanged: bool
    var apiConfig: ApiConfig
    const eyeTextureConfigs: array<TextureConfig>
    /** `projectionChanged_`, one flag per eye. */
    const projectionChanged: array<bool>
    /** The two eye records, owned by value in the source: their identities never change. */
    const eyeParameters: seq<EyeParameters>
    const eyeFovs: seq<FovPort>
    /** `eyeRenderingInfo_`: the descriptions the SDK returned. */
    const eyeRenderingInfo: array<EyeRenderDesc>
    var eyeRenderingInfoChanged: bool
    var distortionCaps: Mask
    var pixelDensity: real
    const forceZeroIPD: bool
    const minPixelDensity: real
    const maxPixelDensity: real

    /**
     * One slot per eye in every per-eye array, two distinct records each labelled
     * with its own eye, and, whenever a framebuffer exists, each eye's texture
     * header and record viewport hold that eye's half of it.
     */
    ghost predicate Valid()
      reads this, eyeTextureConfigs, eyeParameters
    {
      eyeTextureConfigs.Length == 2 && projectionChanged.Length == 2 && eyeRenderingInfo.Length == 2
      && |eyeParameters| == 2 && eyeParameters[0] != eyeParameters[1]
      && (forall i :: 0 <= i < 2 ==> eyeParameters[i].eye == EyeOf(i))
      && |eyeFovs| == 2 && display.descriptor.WellFormed()
      && (fbo.Some? ==>
            forall i :: 0 <= i < 2 ==>
              eyeTextureConfigs[i] == EyeTextureConfig(i, fbo.value)
              && eyeParameters[i].viewport == EyeViewport(i, fbo.value.size))
    }

    /**
     * A new renderer: no framebuffer, every flag dirty, density 1, every
     * supported distortion capability enabled, and each record labelled with its
     * eye by the constructor's loop.
     */
    constructor (display: Rift, minPixelDensity: real, maxPixelDensity: real)
      requires display.descriptor.WellFormed()
      ensures Valid()
      ensures this.display == display
      ensures fbo == None && fboSizeChanged && fboFormatChanged && eyeRenderingInfoChanged
      ensures projectionChanged[..] == [true, true]
      ensures pixelDensity == 1.0 && !forceZeroIPD
      ensures distortionCaps == display.SupportedDistortionCaps()
      ensures eyeFovs == display.descriptor.defaultEyeFov
      ensures apiConfig == ApiConfig(display.descriptor.resolutionW, display.descriptor.resolutionH, 0, None)
      ensures this.minPixelDensity == minPixelDensity && this.maxPixelDensity == maxPixelDensity
      ensures fresh(eyeTextureConfigs) && fresh(projectionChanged) && fresh(eyeRenderingInfo)
      ensures fresh(eyeParameters[0]) && fresh(eyeParameters[1])
    {
      this.display := display;
      fboFormat := RendererFboFormat;
      fbo := None;
      fboSizeChanged, fboFormatChanged := true, true;
      apiConfig := ApiConfig(display.descriptor.resolutionW, display.descriptor.resolutionH, 0, None);
      eyeTextureConfigs := new TextureConfig[2](_ => BlankTextureConfig);
      projectionChanged := new bool[2](_ => true);
      var left := new EyeParameters();
      var right := new EyeParameters();
      eyeParameters := [left, right];
      eyeFovs := display.descriptor.defaultEyeFov;
      eyeRenderingInfo := new EyeRenderDesc[2](_ => BlankRenderDesc);
      eyeRenderingInfoChanged := true;
      distortionCaps := display.SupportedDistortionCaps();
      pixelDensity := 1.0;
      forceZeroIPD := false;
      this.minPixelDensity := minPixelDensity;
      this.maxPixelDensity := maxPixelDensity;
      new;
      for i := 0 to 2
        modifies left, right
        invariant forall j :: 0 <= j < i ==> eyeParameters[j].eye == EyeOf(j)
      {
        eyeParameters[i].SetEye(EyeOf(i));
      }
    }

    /** `configureWindow`: records the native window and marks the render configuration dirty. */
    method ConfigureWindow(window: WindowHandle)
      modifies this`apiConfig, this`eyeRenderingInfoChanged
      ensures apiConfig == old(apiConfig).(window := Some(window))
      ensures eyeRenderingInfoChanged
    {
      apiConfig := apiConfig.(window := Some(window));
      eyeRenderingInfoChanged := true;
    }

    /**
     * `setPixelDensity`: a different density is clamped into range and marks the
     * framebuffer size dirty; the same density changes nothing.
     */
    method SetPixelDensity(density: real)
      modifies this`pixelDensity, this`fboSizeChanged
      ensures density == old(pixelDensity) ==> pixelDensity == old(pixelDensity) && fboSizeChanged == old(fboSizeChanged)
      ensures density != old(pixelDensity) ==>
                pixelDensity == Clamp(density, minPixelDensity, maxPixelDensity) && fboSizeChanged
    {
      if density != pixelDensity {
        pixelDensity := Clamp(density, minPixelDensity, maxPixelDensity);
        fboSizeChanged := true;
      }
    }

    /** `isDistortionCapabilityEnabled`: every bit of cap is enabled. */
    predicate IsDistortionCapabilityEnabled(cap: Mask)
      reads this
    {
      HasAll(distortionCaps, cap)
    }

    /**
     * `setDistortionCapabilityEnabled`: a request matching the current state does
     * nothing; otherwise exactly cap's bits are written and the render
     * configuration is marked dirty. Afterwards the query answers the request.
     */
    method SetDistortionCapabilityEnabled(cap: Mask, enable: bool)
      modifies this`distortionCaps, this`eyeRenderingInfoChanged
      ensures enable == old(IsDistortionCapabilityEnabled(cap)) ==>
                distortionCaps == old(distortionCaps) && eyeRenderingInfoChanged == old(eyeRenderingInfoChanged)
      ensures enable != old(IsDistortionCapabilityEnabled(cap)) ==>
                distortionCaps == WriteBits(old(distortionCaps), cap, enable) && eyeRenderingInfoChanged
      ensures IsDistortionCapabilityEnabled(cap) == (enable || cap == {})
    {
      if enable != IsDistortionCapabilityEnabled(cap) {
        distortionCaps := WriteBits(distortionCaps, cap, enable);
        eyeRenderingInfoChanged := true;
      }
      WriteBitsThenQuery(old(distortionCaps), cap, enable);
    }

    /** The framebuffer size for the current density and fields of view. */
    function TargetFboSize(fovTextureSize: FovTextureSize): Size
      requires |eyeFovs| == 2
      reads this
    {
      FboSize(fovTextureSize(Left, eyeFovs[0], pixelDensity), fovTextureSize(Right, eyeFovs[1], pixelDensity))
    }

    /**
     * `configureFBO`: always allocates a new framebuffer of the target size, gives
     * each eye its half in both its texture header and its record, and marks the
     * render configuration dirty. Nothing else in the records changes.
     */
    method ConfigureFbo(fovTextureSize: FovTextureSize, newTexture: nat)
      requires Valid()
      modifies this`fbo, this`eyeRenderingInfoChanged, eyeTextureConfigs, eyeParameters
      ensures Valid() && eyeRenderingInfoChanged
      ensures fbo == Some(Fbo(TargetFboSize(fovTextureSize), fboFormat, newTexture))
      ensures forall i :: 0 <= i < 2 ==>
                eyeTextureConfigs[i] == EyeTextureConfig(i, fbo.value)
                && eyeParameters[i].State() == old(eyeParameters[i].State()).(viewport := EyeViewport(i, fbo.value.size))
    {
      var size := TargetFboSize(fovTextureSize);
      var newFbo := Fbo(size, fboFormat, newTexture);
      fbo := Some(newFbo);
      for i := 0 to 2
        invariant fbo == Some(newFbo)
        invariant forall j :: 0 <= j < i ==>
                    eyeTextureConfigs[j] == EyeTextureConfig(j, newFbo)
                    && eyeParameters[j].State() == old(eyeParameters[j].State()).(viewport := EyeViewport(j, size))
        invariant forall j :: i <= j < 2 ==> eyeParameters[j].State() == old(eyeParameters[j].State())
      {
        eyeTextureConfigs[i] := EyeTextureConfig(i, newFbo);
        eyeParameters[i].SetViewport(EyeViewport(i, size));
      }
      eyeRenderingInfoChanged := true;
    }

    /**
     * `configureRendering`: store the descriptions the SDK computed (with zero
     * offsets when forced) and copy each eye's offset into its record, in the
     * device's eye render order.
     */
    method ConfigureRendering(configureRendering: RenderingConfigurator)
      requires Valid()
      modifies eyeRenderingInfo, eyeParameters
      ensures Valid()
      ensures eyeRenderingInfo[..] == RenderedDescs(configureRendering(apiConfig, distortionCaps, eyeFovs), forceZeroIPD)
      ensures forall i :: 0 <= i < 2 ==>
                eyeParameters[i].State() ==
                  if EyeOf(i) in display.descriptor.eyeRenderOrder
                  then old(eyeParameters[i].State()).(viewAdjust := eyeRenderingInfo[i].viewAdjust)
                  else old(eyeParameters[i].State())
    {
      var descs := configureRendering(apiConfig, distortionCaps, eyeFovs);
      eyeRenderingInfo[0], eyeRenderingInfo[1] := descs.0, descs.1;
      if forceZeroIPD {
        for i := 0 to 2
          invariant forall j :: 0 <= j < i ==> eyeRenderingInfo[j] == [descs.0, descs.1][j].(viewAdjust := ZeroVector)
          invariant forall j :: i <= j < 2 ==> eyeRenderingInfo[j] == [descs.0, descs.1][j]
          invariant forall j :: 0 <= j < 2 ==> eyeParameters[j].State() == old(eyeParameters[j].State())
        {
          eyeRenderingInfo[i] := eyeRenderingInfo[i].(viewAdjust := ZeroVector);
        }
      }
      assert eyeRenderingInfo[..] == RenderedDescs(descs, forceZeroIPD);
      ghost var rendered := eyeRenderingInfo[..];
      var order := display.descriptor.eyeRenderOrder;
      for k := 0 to |order|
        invariant eyeRenderingInfo[..] == rendered
        invariant forall i :: 0 <= i < 2 ==>
                    eyeParameters[i].State() ==
                      if EyeOf(i) in order[..k]
                      then old(eyeParameters[i].State()).(viewAdjust := rendered[i].viewAdjust)
                      else old(eyeParameters[i].State())
      {
        var e := order[k].Index();
        eyeParameters[e].SetViewAdjust(eyeRenderingInfo[e].viewAdjust);
        assert order[..k + 1] == order[..k] + [order[k]];
      }
      assert order[..|order|] == order;
    }

    /**
     * `configureGL`: a framebuffer whose size or format is dirty is reallocated,
     * which always dirties the render configuration; a dirty render configuration
     * is then recomputed. Afterwards no flag is set.
     */
    method ConfigureGL(fovTextureSize: FovTextureSize, configureRendering: RenderingConfigurator, newTexture: nat)
      requires Valid()
      modifies this`fbo, this`fboSizeChanged, this`fboFormatChanged, this`eyeRenderingInfoChanged
      modifies eyeTextureConfigs, eyeRenderingInfo, eyeParameters
      ensures Valid() && !fboSizeChanged && !fboFormatChanged && !eyeRenderingInfoChanged
      ensures fbo == (if old(fboSizeChanged) || old(fboFormatChanged)
                      then Some(Fbo(TargetFboSize(fovTextureSize), fboFormat, newTexture))
                      else old(fbo))
      ensures old(fboSizeChanged) || old(fboFormatChanged) || old(eyeRenderingInfoChanged) ==>
                eyeRenderingInfo[..] == RenderedDescs(configureRendering(apiConfig, distortionCaps, eyeFovs), forceZeroIPD)
      ensures !old(fboSizeChanged) && !old(fboFormatChanged) && !old(eyeRenderingInfoChanged) ==>
                eyeRenderingInfo[..] == old(eyeRenderingInfo[..])
      ensures var rebuilt := old(fboSizeChanged) || old(fboFormatChanged);
              var refreshed := rebuilt || old(eyeRenderingInfoChanged);
              forall i :: 0 <= i < 2 ==>
                eyeTextureConfigs[i] == (if rebuilt then EyeTextureConfig(i, fbo.value) else old(eyeTextureConfigs[i]))
                && eyeParameters[i].State() == old(eyeParameters[i].State()).(
                     viewport := if rebuilt then EyeViewport(i, fbo.value.size) else old(eyeParameters[i].viewport),
                     viewAdjust := if refreshed && EyeOf(i) in display.descriptor.eyeRenderOrder
                                   then eyeRenderingInfo[i].viewAdjust else old(eyeParameters[i].viewAdjust))
    {
      if fboSizeChanged || fboFormatChanged {
        ConfigureFbo(fovTextureSize, newTexture);
        fboSizeChanged, fboFormatChanged := false, false;
      }
      if eyeRenderingInfoChanged {
        ConfigureRendering(configureRendering);
        eyeRenderingInfoChanged := false;
      }
    }

    /**
     * `eyeParameters(eye, pose)`: the offset, head orientation, head position and
     * view are written on every call; the projection matrices are recomputed from
     * the shared distances only while this eye's flag is set, and then only this
     * eye's flag is cleared. The other eye's record is untouched.
     */
    method EyeParametersFor(eye: Eye, pose: Pose, statics: EyeParameterStatics) returns (params: EyeParameters)
      requires Valid()
      modifies eyeParameters[eye.Index()], projectionChanged
      ensures Valid()
      ensures params == eyeParameters[eye.Index()]
      ensures var desc := eyeRenderingInfo[eye.Index()];
              params.viewAdjust == desc.viewAdjust
              && params.headOrientation == pose.orientation
              && params.headPosition == pose.position
              && params.view == ViewMatrix(desc.viewAdjust, pose.orientation)
              && params.viewport == old(params.viewport) && params.gazePoint == old(params.gazePoint)
              && params.perspective == (if old(projectionChanged[eye.Index()])
                                        then EyePerspective(desc, statics.nearClippingDistance, statics.farClippingDistance)
                                        else old(params.perspective))
              && params.ortho == (if old(projectionChanged[eye.Index()])
                                  then EyeOrtho(desc, statics.nearClippingDistance, statics.farClippingDistance, statics.orthoDistance)
                                  else old(params.ortho))
      ensures projectionChanged[..] == old(projectionChanged[..])[eye.Index() := false]
    {
      params := eyeParameters[eye.Index()];
      var desc := eyeRenderingInfo[eye.Index()];
      params.SetViewAdjust(desc.viewAdjust);
      params.SetHeadOrientation(pose.orientation);
      params.SetHeadPosition(pose.position);
      params.SetView(ViewMatrix(desc.viewAdjust, pose.orientation));
      if projectionChanged[eye.Index()] {
        params.SetPerspective(EyePerspective(desc, statics.nearClippingDistance, statics.farClippingDistance));
        params.SetOrtho(EyeOrtho(desc, statics.nearClippingDistance, statics.farClippingDistance, statics.orthoDistance));
        projectionChanged[eye.Index()] := false;
      }
    }
  }
}
