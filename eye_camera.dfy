// QStereoEyeCamera (src/qstereoeyecamera.cpp): the per-eye camera the first
// renderer revision keeps, with a flag that says whether its projection matrices
// must be recomputed, and the class-wide clipping planes.
module StereoEyeCamera {
  import opened Ovr

  /** `QStereoEyeCamera::nearClippingPlane` and `farClippingPlane`: one pair shared by every camera. */
  class ClippingPlanes {
    var near: real
    var far: real

    /** The static initialisers: 0.01 and 10000. */
    constructor ()
      ensures near == 0.01 && far == 10000.0
      ensures 0.0 < near < far
    {
      near, far := 0.01, 10000.0;
    }
  }

  /** The whole state of one camera, as a value. */
  datatype CameraState = CameraState(
    view: Matrix,
    perspective: Matrix,
    ortho: Matrix,
    orthoDistance: real,
    viewAdjust: Vector3,
    viewport: Rect,
    projectionChanged: bool)

  /** QStereoEyeCamera. */
  class EyeCamera {
    var view: Matrix
    var perspective: Matrix
    var ortho: Matrix
    var orthoDistance: real
    var viewAdjust: Vector3
    var viewport: Rect
    var hasProjectionChanged: bool

    /**
     * A new camera has ortho distance 0.8 and a dirty projection, so its first
     * use computes the projection matrices. The matrices start as identities,
     * the offset at zero and the viewport empty, as Qt default-constructs them.
     */
    constructor ()
      ensures orthoDistance == 0.8 && ProjectionChanged()
      ensures view == Identity && perspective == Identity && ortho == Identity
      ensures viewAdjust == ZeroVector && viewport == Rect(0, 0, 0, 0)
    {
      view, perspective, ortho := Identity, Identity, Identity;
      orthoDistance := 0.8;
      viewAdjust := ZeroVector;
      viewport := Rect(0, 0, 0, 0);
      hasProjectionChanged := true;
    }

    function State(): CameraState
      reads this
    {
      CameraState(view, perspective, ortho, orthoDistance, viewAdjust, viewport, hasProjectionChanged)
    }

    /** `projectionChanged`. */
    predicate ProjectionChanged()
      reads this
    {
      hasProjectionChanged
    }

    /** `setProjectionChanged`: the next query answers what was set, and nothing else changes. */
    method SetProjectionChanged(changed: bool)
      modifies this`hasProjectionChanged
      ensures ProjectionChanged() == changed
    {
      hasProjectionChanged := changed;
    }
  }
}
