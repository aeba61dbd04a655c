// QAbstractStereoDisplay (src/qabstractstereodisplay.cpp): quantities derived
// from a display's resolution and eye position. The resolution is a QSize, whose
// dimensions are C++ ints, and C++ integer division truncates toward zero.
module StereoDisplay {
  import opened Wrappers
  import opened StereoEyeParameters
  import opened OculusRift

  /** C++ `a / b` on ints: the quotient truncated toward zero. */
  function TruncDiv(a: int, b: int): (q: int)
    requires b != 0
    ensures var rem := a - b * q;
            (if rem < 0 then -rem else rem) < (if b < 0 then -b else b)
            && (rem == 0 || (rem < 0 <==> a < 0))
  {
    if a >= 0 then a / b else -((-a) / b)
  }

  /** `eyeResolution`: each dimension of the resolution halved, as C++ ints divide. */
  function EyeResolution(width: int, height: int): (r: (int, int))
    ensures 0 <= width ==> 0 <= r.0 && 2 * r.0 <= width < 2 * r.0 + 2
    ensures 0 <= height ==> 0 <= r.1 && 2 * r.1 <= height < 2 * r.1 + 2
    ensures width < 0 ==> 2 * r.0 - 2 < width <= 2 * r.0 <= 0
    ensures height < 0 ==> 2 * r.1 - 2 < height <= 2 * r.1 <= 0
  {
    (TruncDiv(width, 2), TruncDiv(height, 2))
  }

  /** A DK1 panel: 1280x800 splits into two 640x400 eyes; odd and negative sizes round toward zero. */
  lemma EyeResolutionExamples()
    ensures EyeResolution(1280, 800) == (640, 400)
    ensures EyeResolution(1281, 801) == (640, 400)
    ensures EyeResolution(-3, -1) == (-1, 0)
  {
    assert TruncDiv(-3, 2) == -1;
    assert TruncDiv(-1, 2) == 0;
  }

  /**
   * `aspectRatio`: width over height. A zero height gives an infinite or
   * undefined float in the source, modelled as no ratio.
   */
  function AspectRatio(width: int, height: int): (r: Option<real>)
    ensures r.None? <==> height == 0
    ensures r.Some? ==> r.value * height as real == width as real
  {
    if height == 0 then None else Some(width as real / height as real)
  }

  lemma AspectRatioDk1()
    ensures AspectRatio(1280, 800) == Some(1.6)
  {
  }

  /**
   * `normalizedEyePosition`: the origin whenever eye tracking is disabled;
   * otherwise the eye position divided by the resolution, dimension by
   * dimension. A zero dimension while tracking gives an infinite or undefined
   * float in the source, modelled as no position.
   */
  function NormalizedEyePosition(eyeTrackingEnabled: bool, eyePosition: (int, int), width: int, height: int): (r: Option<Point>)
    ensures !eyeTrackingEnabled ==> r == Some(Point(0.0, 0.0))
    ensures eyeTrackingEnabled ==> (r.None? <==> width == 0 || height == 0)
    ensures eyeTrackingEnabled && r.Some? ==>
              r.value.x * width as real == eyePosition.0 as real && r.value.y * height as real == eyePosition.1 as real
  {
    if !eyeTrackingEnabled then Some(Point(0.0, 0.0))
    else if width == 0 || height == 0 then None
    else Some(Point(eyePosition.0 as real / width as real, eyePosition.1 as real / height as real))
  }

  /** With the earlier device revision, eye tracking is never on, so the eye sits at the origin. */
  lemma RiftEyeAtOrigin(rift: Rift, width: int, height: int)
    ensures NormalizedEyePosition(rift.EyeTrackingEnabled(), rift.EyePosition(), width, height) == Some(Point(0.0, 0.0))
  {
  }
}
