// QOculusRiftStereoRenderer (src/oculusvr/qoculusriftstereorenderer.cpp): the
// first renderer revision's public face. `apply()` composes one frame; the
// distortion toggles map onto single LibOVR distortion bits.
module OculusRiftStereoRenderer {
  import opened Ovr
  import opened Wrappers
  import opened Framebuffer
  import opened RenderConfig
  import opened FrameProtocol
  import opened StereoEyeCamera
  import opened OculusRift
  import opened OculusRiftStereoRendererPrivate

  /** QOculusRiftStereoRenderer, with the calls it makes recorded in `frameEvents`. */
  class StereoRenderer {
    const d: StereoRendererPrivate
    var frameEvents: seq<FrameEvent>

    ghost predicate Valid()
      reads this, d, d.eyeTextureConfigs, d.eyeCameras
    {
      d.Valid()
    }

    constructor (display: Rift, minPixelDensity: real, maxPixelDensity: real)
      requires display.descriptor.WellFormed()
      ensures Valid() && frameEvents == []
      ensures d.display == display && fresh(d)
      ensures d.fbo == None && d.fboChanged && d.eyeRenderConfigsChanged
    {
      d := new StereoRendererPrivate(display, minPixelDensity, maxPixelDensity);
      frameEvents := [];
    }

    /**
     * `apply()`: configure GL, begin the frame, bind and clear the framebuffer,
     * then for each eye of the device's render order begin the eye, update its
     * camera with the pose LibOVR returned, paint, and submit that eye's texture;
     * finally release the framebuffer, end the frame and reset the GL state.
     * `poses[k]` is what the k-th ovrHmd_BeginEyeRender returned. Afterwards
     * nothing is dirty, and every eye that was rendered has a clean projection.
     */
    method Apply(fovTextureSize: FovTextureSize, configureRendering: RenderingConfigurator, newTexture: nat,
                 deltaSeconds: real, poses: seq<Pose>, planes: ClippingPlanes)
      requires Valid()
      requires |poses| == |d.display.descriptor.eyeRenderOrder|
      modifies this`frameEvents, d`fbo, d`fboChanged, d`eyeRenderConfigsChanged
      modifies d.eyeTextureConfigs, d.eyeRenderConfigs, d.eyeCameras
      ensures Valid() && !d.fboChanged && !d.eyeRenderConfigsChanged
      ensures frameEvents == old(frameEvents)
                + FrameTrace(d.display.descriptor.eyeRenderOrder, poses, deltaSeconds, d.eyeTextureConfigs[..])
      ensures forall i :: 0 <= i < 2 && EyeOf(i) in d.display.descriptor.eyeRenderOrder ==>
                !d.eyeCameras[i].ProjectionChanged()
    {
      frameEvents := frameEvents + [Configure];
      d.ConfigureGL(fovTextureSize, configureRendering, newTexture);
      frameEvents := frameEvents + [BeginFrame, BindFbo, ClearBuffers];
      ghost var textures := d.eyeTextureConfigs[..];
      RenderEyes(deltaSeconds, poses, planes);
      frameEvents := frameEvents + [ReleaseFbo, EndFrame, ResetGlState];
      assert d.eyeTextureConfigs[..] == textures;
    }

    /** The eye loop of `apply()`: one block per eye of the render order. */
    method RenderEyes(deltaSeconds: real, poses: seq<Pose>, planes: ClippingPlanes)
      requires Valid()
      requires |poses| == |d.display.descriptor.eyeRenderOrder|
      modifies this`frameEvents, d.eyeCameras
      ensures Valid()
      ensures frameEvents == old(frameEvents)
                + EyeBlocks(d.display.descriptor.eyeRenderOrder, poses, deltaSeconds, d.eyeTextureConfigs[..])
      ensures forall i :: 0 <= i < 2 && EyeOf(i) in d.display.descriptor.eyeRenderOrder ==>
                !d.eyeCameras[i].ProjectionChanged()
    {
      var order := d.display.descriptor.eyeRenderOrder;
      ghost var textures := d.eyeTextureConfigs[..];
      for k := 0 to |order|
        invariant d.Valid()
        invariant frameEvents == old(frameEvents) + EyeBlocks(order[..k], poses[..k], deltaSeconds, textures)
        invariant forall i :: 0 <= i < 2 && EyeOf(i) in order[..k] ==> !d.eyeCameras[i].ProjectionChanged()
      {
        var eye := order[k];
        var camera := d.EyeCamera(eye, poses[k], planes);
        frameEvents := frameEvents + EyeBlock(eye, poses[k], deltaSeconds, d.eyeTextureConfigs[eye.Index()]);
        EyeBlocksExtend(order, poses, deltaSeconds, textures, k);
        assert order[..k + 1] == order[..k] + [eye];
      }
      assert order[..|order|] == order && poses[..|poses|] == poses;
    }

    /** `chromaticAberrationCorrectionEnabled`. */
    predicate ChromaticAberrationCorrectionEnabled()
      reads this, d
    {
      d.IsDistortionCapabilityEnabled(DistortionCapChromatic)
    }

    /** `enableChromaticAberrationCorrection`: the query then answers the request, other bits unchanged. */
    method EnableChromaticAberrationCorrection(enable: bool)
      modifies d`distortionCaps, d`eyeRenderConfigsChanged
      ensures ChromaticAberrationCorrectionEnabled() == enable
      ensures d.distortionCaps - DistortionCapChromatic == old(d.distortionCaps) - DistortionCapChromatic
    {
      d.SetDistortionCapabilityEnabled(DistortionCapChromatic, enable);
    }

    predicate TimewarpEnabled()
      reads this, d
    {
      d.IsDistortionCapabilityEnabled(DistortionCapTimeWarp)
    }

    /** `enableTimewarp`: the query then answers the request, other bits unchanged. */
    method EnableTimewarp(enable: bool)
      modifies d`distortionCaps, d`eyeRenderConfigsChanged
      ensures TimewarpEnabled() == enable
      ensures d.distortionCaps - DistortionCapTimeWarp == old(d.distortionCaps) - DistortionCapTimeWarp
    {
      d.SetDistortionCapabilityEnabled(DistortionCapTimeWarp, enable);
    }

    predicate VignetteEnabled()
      reads this, d
    {
      d.IsDistortionCapabilityEnabled(DistortionCapVignette)
    }

    /** `enableVignette`: the query then answers the request, other bits unchanged. */
    method EnableVignette(enable: bool)
      modifies d`distortionCaps, d`eyeRenderConfigsChanged
      ensures VignetteEnabled() == enable
      ensures d.distortionCaps - DistortionCapVignette == old(d.distortionCaps) - DistortionCapVignette
    {
      d.SetDistortionCapabilityEnabled(DistortionCapVignette, enable);
    }

    /**
     * `initializeWindow`: `window` is what QWindow::fromWinId found; when it found
     * nothing only a warning is logged and nothing changes.
     */
    method InitializeWindow(window: Option<WindowHandle>)
      modifies d`apiConfig, d`eyeRenderConfigsChanged
      ensures window.None? ==> d.apiConfig == old(d.apiConfig) && d.eyeRenderConfigsChanged == old(d.eyeRenderConfigsChanged)
      ensures window.Some? ==> d.apiConfig == old(d.apiConfig).(window := window) && d.eyeRenderConfigsChanged
    {
      if window.Some? {
        d.ConfigureWindow(window.value);
      }
    }

    /** `freezeEyeUpdates`: not implemented; it only logs, so no state changes. */
    method FreezeEyeUpdates(eye: Eye, freeze: bool)
      ensures unchanged(this, d)
    {
    }
  }
}
