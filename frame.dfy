// The frame-composition protocol of `apply()` in both renderers, as the ordered
// trace of calls it makes on LibOVR, on the framebuffer and on the user's
// `paintGL`: configure, begin the frame, bind and clear, one block per eye in the
// device's render order, then release, end the frame and reset the GL state.
module FrameProtocol {
  import opened Ovr
  import opened Framebuffer

  datatype FrameEvent =
    | Configure                                        // configureGL
    | BeginFrame                                       // ovrHmd_BeginFrame
    | BindFbo
    | ClearBuffers                                     // glClear(colour | depth)
    | BeginEyeRender(eye: Eye)                         // ovrHmd_BeginEyeRender
    | EyeUpdate(eye: Eye, pose: Pose)                  // eyeCamera / eyeParameters
    | Paint(eye: Eye, deltaSeconds: real)              // paintGL
    | EndEyeRender(eye: Eye, pose: Pose, texture: TextureConfig)  // ovrHmd_EndEyeRender
    | ReleaseFbo
    | EndFrame                                         // ovrHmd_EndFrame
    | ResetGlState                                     // unbind buffers and program

  /** The four calls made for one eye, with the pose BeginEyeRender returned. */
  function EyeBlock(eye: Eye, pose: Pose, deltaSeconds: real, texture: TextureConfig): seq<FrameEvent>
  {
    [BeginEyeRender(eye), EyeUpdate(eye, pose), Paint(eye, deltaSeconds), EndEyeRender(eye, pose, texture)]
  }

  /**
   * The eye blocks for a render order; the k-th BeginEyeRender returned poses[k]
   * and every eye submits its own entry of `textures`.
   */
  function EyeBlocks(order: seq<Eye>, poses: seq<Pose>, deltaSeconds: real, textures: seq<TextureConfig>): seq<FrameEvent>
    requires |poses| == |order| && |textures| == 2
    decreases |order|
  {
    if |order| == 0 then []
    else
      var n := |order| - 1;
      EyeBlocks(order[..n], poses[..n], deltaSeconds, textures)
        + EyeBlock(order[n], poses[n], deltaSeconds, textures[order[n].Index()])
  }

  /** Rendering one more eye of the order appends that eye's block. */
  lemma EyeBlocksExtend(order: seq<Eye>, poses: seq<Pose>, deltaSeconds: real, textures: seq<TextureConfig>, k: nat)
    requires |poses| == |order| && |textures| == 2 && k < |order|
    ensures EyeBlocks(order[..k + 1], poses[..k + 1], deltaSeconds, textures)
            == EyeBlocks(order[..k], poses[..k], deltaSeconds, textures)
               + EyeBlock(order[k], poses[k], deltaSeconds, textures[order[k].Index()])
  {
    assert order[..k + 1][..k] == order[..k];
    assert poses[..k + 1][..k] == poses[..k];
  }

  /** The whole trace of one `apply()`. */
  function FrameTrace(order: seq<Eye>, poses: seq<Pose>, deltaSeconds: real, textures: seq<TextureConfig>): seq<FrameEvent>
    requires |poses| == |order| && |textures| == 2
  {
    [Configure, BeginFrame, BindFbo, ClearBuffers]
      + EyeBlocks(order, poses, deltaSeconds, textures)
      + [ReleaseFbo, EndFrame, ResetGlState]
  }

  /** Each eye of the order contributes exactly four events. */
  lemma {:induction false} EyeBlocksLength(order: seq<Eye>, poses: seq<Pose>, deltaSeconds: real, textures: seq<TextureConfig>)
    requires |poses| == |order| && |textures| == 2
    ensures |EyeBlocks(order, poses, deltaSeconds, textures)| == 4 * |order|
    decreases |order|
  {
    if |order| > 0 {
      var n := |order| - 1;
      EyeBlocksLength(order[..n], poses[..n], deltaSeconds, textures);
    }
  }

  /**
   * Block k of the trace is BeginEyeRender(order[k]), the eye update with the
   * pose BeginEyeRender returned, one paint with the frame's delta, and
   * EndEyeRender for the same eye with the same pose and that eye's texture.
   */
  lemma {:induction false} EyeBlocksAt(order: seq<Eye>, poses: seq<Pose>, deltaSeconds: real, textures: seq<TextureConfig>, k: nat)
    requires |poses| == |order| && |textures| == 2
    requires k < |order|
    ensures |EyeBlocks(order, poses, deltaSeconds, textures)| == 4 * |order|
    ensures var blocks := EyeBlocks(order, poses, deltaSeconds, textures);
            blocks[4 * k] == BeginEyeRender(order[k])
            && blocks[4 * k + 1] == EyeUpdate(order[k], poses[k])
            && blocks[4 * k + 2] == Paint(order[k], deltaSeconds)
            && blocks[4 * k + 3] == EndEyeRender(order[k], poses[k], textures[order[k].Index()])
    decreases |order|
  {
    EyeBlocksLength(order, poses, deltaSeconds, textures);
    var n := |order| - 1;
    EyeBlocksLength(order[..n], poses[..n], deltaSeconds, textures);
    if k < n {
      EyeBlocksAt(order[..n], poses[..n], deltaSeconds, textures, k);
    }
  }

  /** The number of paintGL calls in a trace. */
  function PaintCount(trace: seq<FrameEvent>): nat
  {
    if |trace| == 0 then 0
    else PaintCount(trace[..|trace| - 1]) + (if trace[|trace| - 1].Paint? then 1 else 0)
  }

  lemma {:induction false} PaintCountAppend(a: seq<FrameEvent>, b: seq<FrameEvent>)
    ensures PaintCount(a + b) == PaintCount(a) + PaintCount(b)
    decreases |b|
  {
    if |b| > 0 {
      var n := |b| - 1;
      assert (a + b)[..|a + b| - 1] == a + b[..n];
      PaintCountAppend(a, b[..n]);
    } else {
      assert a + b == a;
    }
  }

  /** One paintGL per entry of the render order. */
  lemma {:induction false} EyeBlocksPaintOncePerEye(order: seq<Eye>, poses: seq<Pose>, deltaSeconds: real, textures: seq<TextureConfig>)
    requires |poses| == |order| && |textures| == 2
    ensures PaintCount(EyeBlocks(order, poses, deltaSeconds, textures)) == |order|
    decreases |order|
  {
    if |order| > 0 {
      var n := |order| - 1;
      var block := EyeBlock(order[n], poses[n], deltaSeconds, textures[order[n].Index()]);
      EyeBlocksPaintOncePerEye(order[..n], poses[..n], deltaSeconds, textures);
      PaintCountAppend(EyeBlocks(order[..n], poses[..n], deltaSeconds, textures), block);
      assert PaintCount(block) == 1 by {
        assert block[..1][..0] == [];
        assert PaintCount(block[..1]) == 0;
        assert block[..2][..1] == block[..1];
        assert PaintCount(block[..2]) == 0;
        assert block[..3][..2] == block[..2];
        assert PaintCount(block[..3]) == 1;
        assert block[..3] == block[..|block| - 1];
      }
    }
  }

  /**
   * The shape of a frame: configure comes first and nowhere else, BeginFrame is
   * second, EndFrame is second to last, every paint lies strictly between them and
   * carries the frame's delta, and the number of paints equals the length of the
   * render order.
   */
  lemma {:induction false} FrameTraceShape(order: seq<Eye>, poses: seq<Pose>, deltaSeconds: real, textures: seq<TextureConfig>)
    requires |poses| == |order| && |textures| == 2
    ensures var trace := FrameTrace(order, poses, deltaSeconds, textures);
            |trace| == 4 * |order| + 7
            && trace[0] == Configure && trace[1] == BeginFrame
            && trace[|trace| - 2] == EndFrame && trace[|trace| - 1] == ResetGlState
            && (forall p :: 0 < p < |trace| ==> !trace[p].Configure?)
            && (forall p :: 0 <= p < |trace| && trace[p].Paint? ==> 1 < p < |trace| - 2 && trace[p].deltaSeconds == deltaSeconds)
            && PaintCount(trace) == |order|
  {
    var head: seq<FrameEvent> := [Configure, BeginFrame, BindFbo, ClearBuffers];
    var tail: seq<FrameEvent> := [ReleaseFbo, EndFrame, ResetGlState];
    var blocks := EyeBlocks(order, poses, deltaSeconds, textures);
    var trace := FrameTrace(order, poses, deltaSeconds, textures);
    EyeBlocksLength(order, poses, deltaSeconds, textures);
    forall p | 4 <= p < 4 + |blocks|
      ensures !trace[p].Configure?
      ensures trace[p].Paint? ==> trace[p].deltaSeconds == deltaSeconds
    {
      var k := (p - 4) / 4;
      EyeBlocksAt(order, poses, deltaSeconds, textures, k);
      assert trace[p] == blocks[p - 4];
    }
    PaintCountAppend(head, blocks);
    PaintCountAppend(head + blocks, tail);
    EyeBlocksPaintOncePerEye(order, poses, deltaSeconds, textures);
    assert PaintCount(head) == 0 by {
      assert head[..1][..0] == [];
      assert PaintCount(head[..1]) == 0;
      assert head[..2][..1] == head[..1];
      assert PaintCount(head[..2]) == 0;
      assert head[..3][..2] == head[..2];
      assert PaintCount(head[..3]) == 0;
      assert head[..3] == head[..|head| - 1];
    }
    assert PaintCount(tail) == 0 by {
      assert tail[..1][..0] == [];
      assert PaintCount(tail[..1]) == 0;
      assert tail[..2][..1] == tail[..1];
      assert PaintCount(tail[..2]) == 0;
      assert tail[..2] == tail[..|tail| - 1];
    }
  }
}
