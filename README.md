# qtstereoscopy: a verified model of the Oculus Rift binding's bookkeeping

qtstereoscopy binds Qt and OpenGL to the Oculus LibOVR 0.3 SDK. Most of it
forwards to the SDK. Around those calls it keeps its own state, and this
project models that state and proves properties of it in Dafny:

- **Device capability masks.** This is `QOculusRiftPrivate`, the current device
  revision. A device is opened, or a debug device is used as a fallback. Its
  sensor capabilities are then normalised. Two enabled masks, device-level and
  tracking, are updated by guarded set-or-clear writes, and each write is
  pushed to the device.
- **LibOVR lifetime.** A process-wide instance counter initialises LibOVR on
  the first device and shuts it down after the last.
- **The earlier device revision.** This is `QOculusRift` as written in
  `qoculusrift.cpp`, which both renderers own. It enables everything it
  supports and reports no tracking of any kind.
- **The two renderer revisions.** `QOculusRiftStereoRenderer` and
  `QOculusRiftRenderer` keep dirty flags that `configureGL` clears in order.
  Both also model:
  - the pixel-density clamp;
  - the distortion-capability toggles;
  - the framebuffer geometry (two eye halves side by side);
  - the per-eye memoised projection matrices.
- **Frame composition.** `apply()` produces an ordered trace of calls: configure,
  begin the frame, one four-call block per eye in the device's render order,
  then end the frame.
- **Repaint coalescing in `QStereoWindow`.** One pending flag keeps at most one
  update request outstanding.
- **Small per-eye records and display arithmetic.** These are
  `QStereoEyeCamera`, `QStereoEyeParameters` and `QAbstractStereoDisplay`.

Objects whose fields the source updates in place are Dafny classes, with
methods that state their new state. Values are datatypes.

- **Masks.** LibOVR's `unsigned int` capability masks are sets of bit
  positions. `|` is union, `& ~` is difference, and `(m & c) == c` is `c <= m`.
  The constants are the LibOVR 0.3 values, with their hex value beside each.
- **Matrices.** They are symbolic terms naming the vendor routine and its
  inputs. The model can therefore say when a matrix is recomputed and from what,
  but not what it contains.
- **SDK results as inputs.** These calls are not modelled; their results are
  inputs:
  - `ovrHmd_GetFovTextureSize` and `ovrHmd_ConfigureRendering` are
    function-valued parameters;
  - the poses returned by `ovrHmd_BeginEyeRender`, the frame delta, the window
    lookup, and the success of `makeCurrent` / context creation are plain
    parameters.
- **Calls the binding makes.** Calls on the device, the library and the window
  are appended to traces (`deviceCalls`, `calls`, `frameEvents`), so ordering
  properties can be stated.
- **Fatal errors.** A `qFatal` becomes a precondition: the modelled call
  requires the situation that is not fatal.

## Model

| member | source | states |
|---|---|---|
| Capabilities.WriteBits | src/oculusvr/qoculusrift_p.cpp:165-171 | `field \| cap` / `field & ~cap`: exactly the bits of cap change, and they end up all set (enable) or all clear (disable) |
| Capabilities.WriteBitsThenQuery | src/oculusvr/qoculusriftstereorenderer_p.cpp:243-261 | after writing cap, "all bits of cap are set" answers the request (an empty cap always reads as set) |
| Capabilities.WriteBitsMatchingIsNoOp | src/oculusvr/qoculusrift_p.cpp:163 | for a single-bit capability, writing the state it already has leaves the mask unchanged, so the guard only skips writes that would change nothing |
| Capabilities.WriteBitsIdempotent | src/oculusvr/qoculusrift_p.cpp:165-171 | writing the same capability state twice equals writing it once |
| Capabilities.SensorCalls | src/oculusvr/qoculusrift_p.cpp:226-240 | no call when tracking is unavailable; otherwise exactly one call, StopSensor iff the enabled tracking mask is empty, else StartSensor with the supported and enabled masks |
| Capabilities.IndexAccepted | src/oculusvr/qoculusrift_p.cpp:59-60 | index 0 is always accepted; any other index must be below ovrHmd_Detect()'s count compared as unsigned, so a negative count wraps around to a huge one |
| LibOvrLifetime.InstanceCounter.constructor | src/oculusvr/qoculusrift_p.cpp:37 | the counter starts at zero with no library call made |
| LibOvrLifetime.InstanceCounter.Acquire | src/oculusvr/qoculusrift_p.cpp:51-55 | ovr_Initialize is called only on the 0 to 1 transition; the calls keep alternating Initialize/Shutdown, and the library is up afterwards |
| LibOvrLifetime.InstanceCounter.Release | src/oculusvr/qoculusrift_p.cpp:104-105 | ovr_Shutdown is called only on the 1 to 0 transition; the library is up exactly while the count is positive |
| OculusRiftPrivate.CapClassesDisjoint | src/oculusvr/qoculusrift_p.cpp:187-222 | no value is both a device-level and a tracking capability, and every value either accepts is a single bit |
| OculusRiftPrivate.EnabledCaps.WithCap | src/oculusvr/qoculusrift_p.cpp:160-184 | a matching request or an unknown value leaves both masks unchanged; otherwise only the owning mask changes, only in cap's bits, and the query then answers the request |
| OculusRiftPrivate.IsCapEnabledReadsOwningMask | src/oculusvr/qoculusrift_p.cpp:151-157 | `isCapEnabled(cap)` depends only on the mask that owns cap: replacing the other mask never changes it, and an unknown value is never enabled |
| OculusRiftPrivate.IsCapEnabledMonotone | src/oculusvr/qoculusrift_p.cpp:151-157 | adding bits to either mask never turns an enabled capability off |
| OculusRiftPrivate.WithCapIndependent | src/oculusvr/qoculusrift_p.cpp:173-182 | toggling one known capability leaves the answer for every other capability unchanged |
| OculusRiftPrivate.WithCapIdempotent | src/oculusvr/qoculusrift_p.cpp:163 | repeating a request is a no-op |
| OculusRiftPrivate.NormalisedSensorCaps | src/oculusvr/qoculusrift_p.cpp:76-87 | the normalised sensor capabilities never add a bit; a debug device has none; a DK1 with tracking loses exactly Position and YawCorrection; any other device keeps what LibOVR reported |
| OculusRiftPrivate.InitialHmdCaps | src/oculusvr/qoculusrift_p.cpp:89-90 | the starting device-level mask is every supported capability except NoVSync |
| OculusRiftPrivate.VsyncStartsEnabled | test/unit/oculusvr_testsuite/qoculusrift_test.cpp:53 | right after construction NoVSync is not enabled, so vsync is on, whatever the device supports |
| OculusRiftPrivate.DebugDeviceStartsUntracked | src/oculusvr/qoculusrift_p.cpp:77-78 | a debug device starts with no sensor capability, and with tracking unavailable no sensor call is made |
| OculusRiftPrivate.RiftDevice.constructor | src/oculusvr/qoculusrift_p.cpp:40-95 | increments the instance counter and initialises LibOVR on the first device; opens a debug device iff one is forced or ovrHmd_Create fails; normalises the descriptor; sets the masks and pushes them, device-level first, then the sensor decision |
| OculusRiftPrivate.RiftDevice.ResetTracking | src/oculusvr/qoculusrift_p.cpp:143-148 | resets the sensor only when tracking is available, so never on a debug device |
| OculusRiftPrivate.RiftDevice.UpdateHmdCaps | src/oculusvr/qoculusrift_p.cpp:203-207 | pushes the whole device-level mask |
| OculusRiftPrivate.RiftDevice.UpdateTrackingCaps | src/oculusvr/qoculusrift_p.cpp:225-240 | appends exactly the sensor decision for the current tracking mask |
| OculusRiftPrivate.RiftDevice.SetCapEnabled | src/oculusvr/qoculusrift_p.cpp:160-184 | the masks become the `WithCap` result; the owning mask is pushed only when it changed, and nothing is pushed for a matching request or an unknown value |
| OculusRiftPrivate.RiftDevice.Destroy | src/oculusvr/qoculusrift_p.cpp:98-106 | destroys the handle, then shuts LibOVR down iff this was the last device |
| OculusRift.RefreshRate | src/oculusvr/qoculusrift.cpp:119-130 | 75 Hz exactly for a DK2, 60 Hz for every other type |
| OculusRift.DebugDeviceRefreshRate | test/unit/oculusvr_testsuite/qoculusrift_test.cpp:51 | the DK1 stand-in debug device reports 60 Hz |
| OculusRift.HeadOrientationAsWrittenIsNotARotation | src/oculusvr/qoculusrift.cpp:195-205 | the value returned as written has norm 0 and is not the identity rotation |
| OculusRift.HeadOrientation | test/unit/oculusvr_testsuite/qoculusrift_test.cpp:74 | the corrected orientation with tracking off is a unit quaternion equal to its conjugate and neutral for composition with any rotation on either side: exactly the identity (1, 0, 0, 0) |
| OculusRift.Rift.constructor | src/oculusvr/qoculusrift.cpp:41-78 | counts the instance and initialises LibOVR on the first one; falls back to a debug device when ovrHmd_Create fails; each enabled mask equals its supported mask, with tracking empty; pushes the device mask, then StopSensor |
| OculusRift.Rift.Destroy | src/oculusvr/qoculusrift.cpp:81-89 | destroys the handle, then shuts LibOVR down iff this was the last instance |
| OculusRift.Rift.UpdateHmdCapabilities | src/oculusvr/qoculusrift.cpp:621-625 | pushes the enabled device-level mask |
| OculusRift.Rift.UpdateTrackingCapabilities | src/oculusvr/qoculusrift.cpp:628-640 | stops the sensor iff the enabled tracking mask is empty, otherwise starts it, without asking whether tracking is available |
| OculusRift.Rift.EnableOrientationTracking | src/oculusvr/qoculusrift.cpp:184-193 | changes no state, and orientation tracking stays disabled |
| OculusRift.Rift.EnablePositionalTracking | src/oculusvr/qoculusrift.cpp:239-248 | changes no state, and positional tracking stays disabled |
| OculusRift.Rift.EnableEyeTracking | src/oculusvr/qoculusrift.cpp:294-303 | changes no state, and eye tracking stays disabled |
| OculusRift.Rift.EnableHmdCapability | src/oculusvr/qoculusrift.cpp:334-339 | ignores its argument and re-pushes the unchanged device-level mask |
| OculusRift.Rift.EnableYawCorrection | src/oculusvr/qoculusrift.cpp:350-355 | ignores its argument and re-runs the sensor decision on the unchanged tracking mask |
| OculusRift.TrackingNeverAvailable | src/oculusvr/qoculusrift.cpp:163-315 | in every state, no kind of tracking is available or enabled, every device-level and distortion getter reads false, and the head and eye positions are the origin |
| OculusRift.SensorStaysStopped | src/oculusvr/qoculusrift.cpp:527-531 | the supported tracking mask is empty, so the sensor decision for it is StopSensor |
| Framebuffer.FboSize | src/oculusvr/qoculusriftstereorenderer_p.cpp:117-119 | the width is the sum of the eye widths; the height is the larger eye height |
| Framebuffer.EyeViewport | src/oculusvr/qoculusriftstereorenderer_p.cpp:142 | each eye's viewport is the full height and half the width; it lies in [0, w); the left one starts at 0 and the right one ends at w |
| Framebuffer.EyeViewportsDisjoint | src/oculusvr/qoculusriftrenderer_p.cpp:283 | the two viewports have equal widths and do not overlap: the right one starts where the left one ends, one column later for an odd width |
| Framebuffer.EyeTextureConfig | src/oculusvr/qoculusriftrenderer_p.cpp:284-296 | an eye's texture header holds the framebuffer's texture and size and that eye's viewport |
| RenderConfig.Clamp | src/oculusvr/qoculusriftstereorenderer_p.cpp:225-235 | below min gives min, above max gives max, in range is kept; the result lies in [min, max] |
| RenderConfig.ClampIdempotent | src/oculusvr/qoculusriftrenderer_p.cpp:179-181 | clamping a clamped density changes nothing |
| RenderConfig.ClampTestTable | test/unit/oculusvr_testsuite/qoculusriftrenderer_test.cpp:84-93 | the renderer tests' density table holds for any bounds consistent with it, minimum 0 and maximum 8 included |
| RenderConfig.RenderedDescs | src/oculusvr/qoculusriftrenderer_p.cpp:308-316 | the stored descriptions keep each eye's field of view and pixel densities; with zero IPD forced every offset is zero, otherwise they are what the SDK returned |
| FrameProtocol.EyeBlocksExtend | src/oculusvr/qoculusriftstereorenderer.cpp:49-57 | rendering one more eye of the order appends that eye's block |
| FrameProtocol.EyeBlocksLength | src/oculusvr/qoculusriftstereorenderer.cpp:49-57 | each entry of the render order contributes four calls |
| FrameProtocol.EyeBlocksAt | src/oculusvr/qoculusriftstereorenderer.cpp:51-56 | block k is BeginEyeRender(order[k]), the eye update with the pose it returned, one paint with the frame delta, then EndEyeRender for the same eye, the same pose and that eye's texture |
| FrameProtocol.PaintCountAppend | src/oculusvr/qoculusriftrenderer.cpp:49-57 | paints in a concatenated trace add up |
| FrameProtocol.EyeBlocksPaintOncePerEye | src/oculusvr/qoculusriftrenderer.cpp:49-57 | one paintGL per entry of the render order |
| FrameProtocol.FrameTraceShape | src/oculusvr/qoculusriftstereorenderer.cpp:36-68 | configure comes first and nowhere else; BeginFrame is second; EndFrame is second to last, followed by the GL reset; every paint lies between BeginFrame and EndFrame with the frame's delta; the number of paints is the length of the render order |
| OculusRiftStereoRenderer.StereoRenderer.constructor | src/oculusvr/qoculusriftstereorenderer.cpp:30-32 | builds a fresh private part for the given device, in its initial state (no framebuffer, both flags dirty), with an empty frame trace |
| OculusRiftRenderer.Renderer.constructor | src/oculusvr/qoculusriftrenderer.cpp:30-32 | builds a fresh private part for the given device, in its initial state (no framebuffer, every flag dirty), with an empty frame trace |
| StereoEyeCamera.ClippingPlanes.constructor | src/qstereoeyecamera.cpp:26-27 | the shared planes start at 0.01 and 10000, near below far |
| StereoEyeCamera.EyeCamera.constructor | src/qstereoeyecamera.cpp:30-33 | a new camera has ortho distance 0.8 and a dirty projection |
| StereoEyeCamera.EyeCamera.SetProjectionChanged | src/qstereoeyecamera.cpp:68-79 | the next `projectionChanged()` answers what was set, and by its frame no other field changes |
| StereoEyeParameters.EyeParameterStatics.SetOrthoDistance | src/qstereoeyeparameters.cpp:176-187 | the one shared ortho distance reads back what was set, through every record |
| StereoEyeParameters.EyeParameterStatics.SetNearClippingDistance | src/qstereoeyeparameters.cpp:190-201 | the shared near distance reads back what was set |
| StereoEyeParameters.EyeParameterStatics.SetFarClippingDistance | src/qstereoeyeparameters.cpp:204-215 | the shared far distance reads back what was set |
| StereoEyeParameters.EyeParameters.constructor | src/qstereoeyeparameters.cpp:27-29 | a new record holds Qt's defaults: empty viewport, origin, identity rotation and identity matrices |
| StereoEyeParameters.EyeParameters.SetEye | src/qstereoeyeparameters.cpp:40-45 | the eye reads back what was set; by its frame nothing else changes |
| StereoEyeParameters.EyeParameters.SetGazePoint | src/qstereoeyeparameters.cpp:56-61 | the gaze point reads back what was set; nothing else changes |
| StereoEyeParameters.EyeParameters.SetHeadOrientation | src/qstereoeyeparameters.cpp:72-77 | the head orientation reads back what was set; nothing else changes |
| StereoEyeParameters.EyeParameters.SetHeadPosition | src/qstereoeyeparameters.cpp:88-93 | the head position reads back what was set; nothing else changes |
| StereoEyeParameters.EyeParameters.SetView | src/qstereoeyeparameters.cpp:104-109 | the view reads back what was set; nothing else changes |
| StereoEyeParameters.EyeParameters.SetViewAdjust | src/qstereoeyeparameters.cpp:120-125 | the eye offset reads back what was set; nothing else changes |
| StereoEyeParameters.EyeParameters.SetViewport | src/qstereoeyeparameters.cpp:136-141 | the viewport reads back what was set; nothing else changes |
| StereoEyeParameters.EyeParameters.SetPerspective | src/qstereoeyeparameters.cpp:152-157 | the perspective reads back what was set; nothing else changes |
| StereoEyeParameters.EyeParameters.SetOrtho | src/qstereoeyeparameters.cpp:168-173 | the ortho matrix reads back what was set; nothing else changes |
| OculusRiftStereoRendererPrivate.StereoRendererPrivate.constructor | src/oculusvr/qoculusriftstereorenderer_p.cpp:42-74 | no framebuffer; both flags dirty; density 1; distortion caps equal the supported ones; the recommended fields of view; render target at the display resolution with no multisampling |
| OculusRiftStereoRendererPrivate.StereoRendererPrivate.ConfigureWindow | src/oculusvr/qoculusriftstereorenderer_p.cpp:77-87 | records the window and marks the render configuration dirty |
| OculusRiftStereoRendererPrivate.StereoRendererPrivate.SetPixelDensity | src/oculusvr/qoculusriftstereorenderer_p.cpp:224-239 | a different density is stored clamped and dirties the framebuffer; an equal one changes nothing |
| OculusRiftStereoRendererPrivate.StereoRendererPrivate.SetDistortionCapabilityEnabled | src/oculusvr/qoculusriftstereorenderer_p.cpp:249-261 | a matching request changes nothing; otherwise exactly cap's bits are written and the render configuration is dirtied; afterwards the query answers the request |
| OculusRiftStereoRendererPrivate.StereoRendererPrivate.RefreshFbo | src/oculusvr/qoculusriftstereorenderer_p.cpp:114-158 | reallocates exactly when there is no framebuffer or its size or format differs, then gives both the texture header and the camera of each eye its half; always clears the framebuffer flag and dirties the render configuration |
| OculusRiftStereoRendererPrivate.StereoRendererPrivate.RefreshRenderConfigs | src/oculusvr/qoculusriftstereorenderer_p.cpp:161-185 | stores the SDK's descriptions, zeroing the offsets when forced; copies each eye's offset into its camera for every eye in the render order, and changes nothing else in the cameras |
| OculusRiftStereoRendererPrivate.StereoRendererPrivate.ConfigureGL | src/oculusvr/qoculusriftstereorenderer_p.cpp:91-186 | afterwards neither flag is set; a dirty framebuffer always forces a render refresh; nothing changes when neither flag was set; each camera's whole state is its old state with only the viewport replaced by its half on a reallocation and the eye offset replaced by the stored description's on a refresh, for eyes in the render order; matrices, ortho distance and projection flag stay |
| OculusRiftStereoRendererPrivate.StereoRendererPrivate.EyeCamera | src/oculusvr/qoculusriftstereorenderer_p.cpp:272-316 | the view is rebuilt from the eye's offset and the pose on every call; perspective and ortho are recomputed only while the camera's projection is dirty, which is then clean; nothing else in the camera changes |
| OculusRiftRendererPrivate.RendererPrivate.constructor | src/oculusvr/qoculusriftrenderer_p.cpp:42-80 | no framebuffer; every flag dirty, with the per-eye projection flags both true; density 1; supported distortion caps; each record labelled with its own eye |
| OculusRiftRendererPrivate.RendererPrivate.ConfigureWindow | src/oculusvr/qoculusriftrenderer_p.cpp:83-93 | records the window and marks the render configuration dirty |
| OculusRiftRendererPrivate.RendererPrivate.SetPixelDensity | src/oculusvr/qoculusriftrenderer_p.cpp:171-186 | a different density is stored clamped and dirties the framebuffer size; an equal one changes nothing |
| OculusRiftRendererPrivate.RendererPrivate.SetDistortionCapabilityEnabled | src/oculusvr/qoculusriftrenderer_p.cpp:196-208 | a matching request changes nothing; otherwise exactly cap's bits are written and the render configuration is dirtied; afterwards the query answers the request |
| OculusRiftRendererPrivate.RendererPrivate.ConfigureFbo | src/oculusvr/qoculusriftrenderer_p.cpp:265-300 | always allocates a framebuffer of the target size; each eye's viewport goes identically into its texture header and its record, whose whole state otherwise stays as it was; the render configuration is dirtied |
| OculusRiftRendererPrivate.RendererPrivate.ConfigureRendering | src/oculusvr/qoculusriftrenderer_p.cpp:303-327 | stores the SDK's descriptions, zeroing offsets when forced, and copies each rendered eye's offset into its record; every other field of every record, gaze point and head pose included, stays as it was |
| OculusRiftRendererPrivate.RendererPrivate.ConfigureGL | src/oculusvr/qoculusriftrenderer_p.cpp:96-133 | afterwards all three flags are clear; a size or format change reallocates and forces a render refresh; nothing changes when no flag was set; each record's whole state is its old state with only the viewport replaced by its half on a reallocation and the eye offset replaced by the stored description's on a refresh, for eyes in the render order |
| OculusRiftRendererPrivate.RendererPrivate.EyeParametersFor | src/oculusvr/qoculusriftrenderer_p.cpp:218-262 | offset, orientation, position and view are written on every call; perspective and ortho are recomputed from the shared distances only while that eye's flag is set; only that eye's flag is cleared |
| OculusRiftStereoRenderer.StereoRenderer.Apply | src/oculusvr/qoculusriftstereorenderer.cpp:35-68 | appends exactly the frame trace for the render order, the returned poses, the frame delta and the eye textures; afterwards nothing is dirty and every rendered eye's projection is clean |
| OculusRiftStereoRenderer.StereoRenderer.RenderEyes | src/oculusvr/qoculusriftstereorenderer.cpp:49-57 | appends one eye block per entry of the render order and leaves each rendered camera's projection clean |
| OculusRiftStereoRenderer.StereoRenderer.EnableChromaticAberrationCorrection | src/oculusvr/qoculusriftstereorenderer.cpp:111-116 | the chromatic getter then answers the request, and no other distortion bit changes |
| OculusRiftStereoRenderer.StereoRenderer.EnableTimewarp | src/oculusvr/qoculusriftstereorenderer.cpp:127-132 | the timewarp getter then answers the request, and no other bit changes |
| OculusRiftStereoRenderer.StereoRenderer.EnableVignette | src/oculusvr/qoculusriftstereorenderer.cpp:143-148 | the vignette getter then answers the request, and no other bit changes |
| OculusRiftStereoRenderer.StereoRenderer.InitializeWindow | src/oculusvr/qoculusriftstereorenderer.cpp:158-169 | configures the window only when the lookup found one; otherwise nothing changes |
| OculusRiftStereoRenderer.StereoRenderer.FreezeEyeUpdates | src/oculusvr/qoculusriftstereorenderer.cpp:151-155 | changes no state |
| OculusRiftRenderer.Renderer.Apply | src/oculusvr/qoculusriftrenderer.cpp:35-68 | appends exactly the frame trace; afterwards no flag is set and every rendered eye's projection flag is clear |
| OculusRiftRenderer.Renderer.RenderEyes | src/oculusvr/qoculusriftrenderer.cpp:49-57 | appends one eye block per entry of the render order and clears each rendered eye's projection flag |
| OculusRiftRenderer.Renderer.EnableChromaticAberrationCorrection | src/oculusvr/qoculusriftrenderer.cpp:123-128 | the chromatic getter then answers the request, and no other distortion bit changes |
| OculusRiftRenderer.Renderer.EnableTimewarp | src/oculusvr/qoculusriftrenderer.cpp:139-144 | the timewarp getter then answers the request, and no other bit changes |
| OculusRiftRenderer.Renderer.EnableVignette | src/oculusvr/qoculusriftrenderer.cpp:155-160 | the vignette getter then answers the request, and no other bit changes |
| OculusRiftRenderer.Renderer.InitializeWindow | src/oculusvr/qoculusriftrenderer.cpp:163-174 | a failed window lookup leaves the configuration unchanged |
| OculusRiftRenderer.Renderer.SwapBuffers | src/oculusvr/qoculusriftrenderer.cpp:71-73 | changes no state |
| OculusRiftRenderer.Renderer.IgnoreEyeUpdates | src/oculusvr/qoculusriftrenderer.cpp:76-80 | changes no state |
| StereoWindow.PaintCalls | src/qstereowindow.h:108-114 | paintGL applies exactly once, first, and swaps buffers iff the renderer does not swap by itself; nothing else is called |
| StereoWindow.Window.constructor | src/qstereowindow.h:75-86 | a new window has no pending request, no context, and has called nothing |
| StereoWindow.Window.UpdateGL | src/qstereowindow.h:97-105 | posts a request only when none is pending, so at most one is ever outstanding; a repeated call is a no-op |
| StereoWindow.Window.PaintGL | src/qstereowindow.h:108-114 | appends the paint calls |
| StereoWindow.Window.Event | src/qstereowindow.h:117-129 | a pending request handled with the context current clears the flag, paints once and re-requests, so a request is pending and queued again; otherwise nothing is painted and the flag is unchanged; a failed makeCurrent on the one queued request leaves the window stalled |
| StereoWindow.Window.ExposeEvent | src/qstereowindow.h:132-148 | the first exposure with no context creates it, initialises the renderer (exactly once over the window's life) and requests the first frame; any other exposure changes nothing |
| StereoDisplay.TruncDiv | src/qabstractstereodisplay.cpp:30 | C++ integer division: the remainder is smaller than the divisor and has the dividend's sign |
| StereoDisplay.EyeResolution | src/qabstractstereodisplay.cpp:27-31 | each dimension is halved toward zero, so for a non-negative resolution it is at most the resolution and at least half of it rounded down |
| StereoDisplay.EyeResolutionExamples | test/unit/oculusvr_testsuite/qoculusrift_test.cpp:48-49 | 1280x800 gives 640x400; odd and negative sizes round toward zero |
| StereoDisplay.AspectRatio | src/qabstractstereodisplay.cpp:34-38 | the ratio times the height is the width; a zero height gives no ratio |
| StereoDisplay.AspectRatioDk1 | test/unit/oculusvr_testsuite/qoculusrift_test.cpp:50 | 1280x800 has aspect ratio 1.6 |
| StereoDisplay.NormalizedEyePosition | src/qabstractstereodisplay.cpp:41-53 | the origin whenever eye tracking is off; otherwise the position divided by the resolution; a zero dimension gives no position |
| StereoDisplay.RiftEyeAtOrigin | src/oculusvr/qoculusrift.cpp:281-315 | with the earlier device revision the normalised eye position is always the origin |

## Findings

| source | as written | input that shows it | evidently intended | confidence | as-written member | corrected member |
|---|---|---|---|---|---|---|
| src/oculusvr/qoculusrift.cpp:195-205 | `headOrientation` returns `QQuaternion(0, 0, 0, 0)` on both branches, a quaternion of norm 0 that is not a rotation | any device of this revision, e.g. the debug device of qoculusrift_test.cpp:65, where line 74 expects `QQuaternion(1, 0, 0, 0)` | with orientation tracking unavailable, the identity rotation (1, 0, 0, 0) | not executed | OculusRift.HeadOrientationAsWritten | OculusRift.HeadOrientation |

## Left out

- **Vendor SDK, Qt, OpenGL and platform code.** None of it is modelled:
  - the numeric content of `ovrHmd_*` results, quaternion and matrix arithmetic, and the 4x4 element-copy loops in `eyeCamera` / `eyeParameters`;
  - `glClear` / `glBindBuffer` / `glUseProgram`;
  - `nativeDisplay`, the platform `#if` window wiring, `bindFBO` / `releaseFBO`;
  - the Qt event queue, which is reduced to a count of posted requests.

  Matrices are symbolic, so the model says when a matrix is recomputed and from which inputs, not what it contains.
- **Fatal conditions.** They are preconditions:
  - a rejected device index;
  - a failed debug-device fallback;
  - a null renderer or a system without OpenGL (the window constructor takes only what it needs);
  - a failed context creation.

  Fatal rejections by the SDK are assumed not to happen: `ovr_Initialize`, `ovrHmd_StartSensor`, `ovrHmd_ConfigureRendering`, and framebuffer allocation and validity. The model records those calls as accepted.
- **Logging.** `qWarning` and `qCritical` are left out.
- **Floating-point rounding.**
  - Pixel density is a real, and `qFuzzyCompare` is exact inequality.
  - The viewport's float products are integer division rounding down, which is what the truncating int conversion gives for non-negative sizes.
  - The aspect ratio and the normalised eye position are exact; a float division by zero is modelled as no result.
- **Instance counter.** The `std::atomic` is a sequential counter. The current and the earlier device revision keep separate counters, which are two `InstanceCounter` objects here.
- **Renderer configuration.** These come from outside the modelled files, so they are constructor parameters:
  - `minPixelDensity()` / `maxPixelDensity()`;
  - the initial values of the `QStereoEyeParameters` statics.
- **The renderers' device.** Both renderers construct their device as `display_(index, forceDebugDevice)`, but the earlier revision's constructor in `qoculusrift.cpp` takes only an index. The renderers therefore receive the opened `Rift` as a constructor argument, and how it is opened is the `OculusRift.Rift.constructor` row.
- **Multisampling and clipping planes.** These are left out: the commented-out multisampling block, the commented-out `setClippingPlaneDistances`, and the commented-out body of `supportedTrackingCapabilities`.
- **Debug-device test expectations.** The tests expect a debug device to ignore enable calls (`qoculusrift_test.cpp:102-119`). That behaviour depends on a public wrapper that is not part of this model, and `setCapEnabled` does not check the supported mask.
- **Forwarders and accessors.** `display()`, `pixelDensity()`, `interpupillaryDistance`, `userHeight`, `productName`, `recommendedFov`, `eyeTextureConfiguration` and the other getters are left out. Each is read as the field it returns.
- **Initialisation.** `QStereoWindow`'s title and `initializeGL` / `paintGL` of the renderers have empty bodies. The default constructor builds its own renderer, which is the same as passing one.
- **Examples.** The tracking console example is left out.
- OculusRiftStereoRenderer.StereoRenderer.Apply: the application's `paintGL` override is assumed not to touch renderer state. In the model a paint is an inert trace event, so an override that calls `setPixelDensity` or a distortion toggle mid-frame, re-dirtying a flag, is not captured; the promise that every flag is clear after the frame holds only under this assumption.
- OculusRiftRenderer.Renderer.Apply: the same assumption; the application's `paintGL` override is taken not to touch renderer state, so the flags-clear promise holds only under it.
- StereoDisplay.EyeResolution: models the no-argument `eyeResolution()` that `qabstractstereodisplay.cpp` defines and the device test calls; the per-eye `eyeResolution(const QEye&)` and `halfResolution()` declared in `qabstractstereodisplay.h` have no definition in the modelled files.
- Ovr.OrthoScale: a zero pixels-per-tangent density yields an infinite float scale in the source; the model gives 0.0 instead, as with the other divisions by zero above.
- OculusRiftPrivate.RiftDevice.constructor: `trackingAvailable()` for a real device is taken as its stub answer, true.
- StereoWindow.Window.Event: an UpdateRequest that Qt delivers without a posted one (for example from `requestUpdate`) is modelled as consuming nothing from the queue.
