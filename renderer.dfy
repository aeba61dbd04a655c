// QOculusRiftRenderer (src/oculusvr/qoculusriftrenderer.cpp): the second
// renderer revision's public face. `apply()` composes one frame exactly as the
// first revision does, handing `paintGL` an eye-parameter record instead of a
// camera; the distortion toggles map onto single LibOVR distortion bits.
module OculusRiftRenderer {
  import opened Ovr
  import opened Wrappers
  import opened Framebuffer
  import opened RenderConfig
  import opened FrameProtocol
  import opened StereoEyeParameters
  import opened OculusRift
  import opened OculusRiftRendererPrivate

  /** QOculusRiftRenderer, with the calls it makes recorded in `frameEvents`. */
  class Renderer {
    const d: RendererPrivate
    var frameEvents: seq<FrameEvent>

    ghost predicate Valid()
      reads this, d, d.eyeTextureConfigs, d.eyeParameters
    {
      d.Valid()
    }

    constructor (display: Rift, minPixelDensity: real, maxPixelDensity: real)
      requires display.descriptor.WellFormed()
      ensures Valid() && frameEvents == []
      ensures d.display == display && fresh(d)
      ensures d.fbo == None && d.fboSizeChanged && d.fboFormatChanged && d.eyeRenderingInfoChanged
    {
      d := new RendererPrivate(display, minPixelDensity, maxPixelDensity);
      frameEvents := [];
    }

    /**
     * `apply()`: configure GL, begin the frame, bind and clear the framebuffer,
     * then for each eye of the device's render order begin the eye, update its
     * parameters with the pose LibOVR returned, paint, and submit that eye's texture;
     * finally release the framebuffer, end the frame and reset the GL state.
     * `poses[k]` is what the k-th ovrHmd_BeginEyeRender returned. Afterwards
     * no framebuffer or render flag is set, and every eye that was rendered has a
     * clean projection.
     */
    method Apply(fovTextureSize: FovTextureSize, configureRendering: RenderingConfigurator, newTexture: nat,
                 deltaSeconds: real, poses: seq<Pose>, statics: EyeParameterStatics)
      requires Valid()
      requires |poses| == |d.display.descriptor.eyeRenderOrder|
      modifies this`frameEvents, d`fbo, d`fboSizeChanged, d`fboFormatChanged, d`eyeRenderingInfoChanged
      modifies d.eyeTextureConfigs, d.eyeRenderingInfo, d.eyeParameters, d.projectionChanged
      ensures Valid() && !d.fboSizeChanged && !d.fboFormatChanged && !d.eyeRenderingInfoChanged
      ensures frameEvents == old(frameEvents)
                + FrameTrace(d.display.descriptor.eyeRenderOrder, poses, deltaSeconds, d.eyeTextureConfigs[..])
      ensures forall i :: 0 <= i < 2 && EyeOf(i) in d.display.descriptor.eyeRenderOrder ==>
                !d.projectionChanged[i]
    {
      frameEvents := frameEvents + [Configure];
      d.ConfigureGL(fovTextureSize, configureRendering, newTexture);
      frameEvents := frameEvents + [BeginFrame, BindFbo, ClearBuffers];
      RenderEyes(deltaSeconds, poses, statics);
      frameEvents := frameEvents + [ReleaseFbo, EndFrame, ResetGlState];
    }

    /** The eye loop of `apply()`: one block per eye of the render order. */
    method RenderEyes(deltaSeconds: real, poses: seq<Pose>, statics: EyeParameterStatics)
      requires Valid()
      requires |poses| == |d.display.descriptor.eyeRenderOrder|
      modifies this`frameEvents, d.eyeParameters, d.projectionChanged
      ensures Valid()
      ensures frameEvents == old(frameEvents)
                + EyeBlocks(d.display.descriptor.eyeRenderOrder, poses, deltaSeconds, d.eyeTextureConfigs[..])
      ensures forall i :: 0 <= i < 2 && EyeOf(i) in d.display.descriptor.eyeRenderOrder ==>
                !d.projectionChanged[i]
    {
      var order := d.display.descriptor.eyeRenderOrder;
      ghost var textures := d.eyeTextureConfigs[..];
      for k := 0 to |order|
        invariant d.Valid()
        invariant frameEvents == old(frameEvents) + EyeBlocks(order[..k], poses[..k], deltaSeconds, textures)
        invariant forall i :: 0 <= i < 2 && EyeOf(i) in order[..k] ==> !d.projectionChanged[i]
      {
        var eye := order[k];
        var parameters := d.EyeParametersFor(eye, poses[k], statics);
        frameEvents := frameEvents + EyeBlock(eye, poses[k], deltaSeconds, d.eyeTextureConfigs[eye.Index()]);
        EyeBlocksExtend(order, poses, deltaSeconds, textures, k);
        assert order[..k + 1] == order[..k] + [eye];
      }
      assert order[..|order|] == order && poses[..|poses|] == poses;
    }

    /** `chromaticAberrationCorrectionEnabled`. */
    predicate ChromaticAberrationCorrectionEnabled()
      reads this, d
    {
      d.IsDistortionCapabilityEnabled(DistortionCapChromatic)
    }

    /** `enableChromaticAberrationCorrection`: the query then answers the request, other bits unchanged. */
    method EnableChromaticAberrationCorrection(enable: bool)
      modifies d`distortionCaps, d`eyeRenderingInfoChanged
      ensures ChromaticAberrationCorrectionEnabled() == enable
      ensures d.distortionCaps - DistortionCapChromatic == old(d.distortionCaps) - DistortionCapChromatic
    {
      d.SetDistortionCapabilityEnabled(DistortionCapChromatic, enable);
    }

    predicate TimewarpEnabled()
      reads this, d
    {
      d.IsDistortionCapabilityEnabled(DistortionCapTimeWarp)
    }

    /** `enableTimewarp`: the query then answers the request, other bits unchanged. */
    method EnableTimewarp(enable: bool)
      modifies d`distortionCaps, d`eyeRenderingInfoChanged
      ensures TimewarpEnabled() == enable
      ensures d.distortionCaps - DistortionCapTimeWarp == old(d.distortionCaps) - DistortionCapTimeWarp
    {
      d.SetDistortionCapabilityEnabled(DistortionCapTimeWarp, enable);
    }

    predicate VignetteEnabled()
      reads this, d
    {
      d.IsDistortionCapabilityEnabled(DistortionCapVignette)
    }

    /** `enableVignette`: the query then answers the request, other bits unchanged. */
    method EnableVignette(enable: bool)
      modifies d`distortionCaps, d`eyeRenderingInfoChanged
      ensures VignetteEnabled() == enable
      ensures d.distortionCaps - DistortionCapVignette == old(d.distortionCaps) - DistortionCapVignette
    {
      d.SetDistortionCapabilityEnabled(DistortionCapVignette, enable);
    }

    /**
     * `initializeWindow`: `window` is what QWindow::fromWinId found; when it found
     * nothing only a warning is logged and nothing changes.
     */
    method InitializeWindow(window: Option<WindowHandle>)
      modifies d`apiConfig, d`eyeRenderingInfoChanged
      ensures window.None? ==> d.apiConfig == old(d.apiConfig) && d.eyeRenderingInfoChanged == old(d.eyeRenderingInfoChanged)
      ensures window.Some? ==> d.apiConfig == old(d.apiConfig).(window := window) && d.eyeRenderingInfoChanged
    {
      if window.Some? {
        d.ConfigureWindow(window.value);
      }
    }

    /** `swapBuffers`: the compositor swaps, so this changes no state. */
    method SwapBuffers()
      ensures unchanged(this, d)
    {
    }

    /** `ignoreEyeUpdates`: not implemented; it only logs, so no state changes. */
    method IgnoreEyeUpdates(eye: Eye, ignore: bool)
      ensures unchanged(this, d)
    {
    }
  }
}
