// QStereoEyeParameters (src/qstereoeyeparameters.cpp): the per-eye record the
// second renderer revision hands to `paintGL`, and the ortho, near and far
// distances that are static and therefore shared by every record.
module StereoEyeParameters {
  import opened Ovr

  /** A QPointF. */
  datatype Point = Point(x: real, y: real)

  /**
   * The static `ORTHO_DISTANCE`, `NEAR_CLIPPING_DISTANCE` and
   * `FAR_CLIPPING_DISTANCE`: one object that every record reads and writes. Their
   * initial values are defined outside the files modelled here, so they are
   * parameters of the constructor.
   */
  class EyeParameterStatics {
    var orthoDistance: real
    var nearClippingDistance: real
    var farClippingDistance: real

    constructor (ortho: real, near: real, far: real)
      ensures orthoDistance == ortho && nearClippingDistance == near && farClippingDistance == far
    {
      orthoDistance, nearClippingDistance, farClippingDistance := ortho, near, far;
    }

    /** `setOrthoDistance`: observed by the next `orthoDistance()` through any record. */
    method SetOrthoDistance(distance: real)
      modifies this`orthoDistance
      ensures orthoDistance == distance
    {
      orthoDistance := distance;
    }

    method SetNearClippingDistance(distance: real)
      modifies this`nearClippingDistance
      ensures nearClippingDistance == distance
    {
      nearClippingDistance := distance;
    }

    method SetFarClippingDistance(distance: real)
      modifies this`farClippingDistance
      ensures farClippingDistance == distance
    {
      farClippingDistance := distance;
    }
  }

  /** The whole state of one record, as a value. */
  datatype ParametersState = ParametersState(
    eye: Eye,
    viewport: Rect,
    gazePoint: Point,
    viewAdjust: Vector3,
    headPosition: Vector3,
    headOrientation: Quaternion,
    view: Matrix,
    ortho: Matrix,
    perspective: Matrix)

  /**
   * QStereoEyeParameters with its private record folded in. Every setter writes
   * its own field and, by its frame, no other.
   */
  class EyeParameters {
    var eye: Eye
    var viewport: Rect
    var gazePoint: Point
    var viewAdjust: Vector3
    var headPosition: Vector3
    var headOrientation: Quaternion
    var view: Matrix
    var ortho: Matrix
    var perspective: Matrix

    /**
     * Qt's default values: an empty viewport, the origin, the identity rotation
     * and identity matrices. The eye is left as the enum's default, which the
     * modelled files do not fix.
     */
    constructor ()
      ensures viewport == Rect(0, 0, 0, 0) && gazePoint == Point(0.0, 0.0)
      ensures viewAdjust == ZeroVector && headPosition == ZeroVector
      ensures headOrientation == Quaternion(1.0, 0.0, 0.0, 0.0)
      ensures view == Identity && ortho == Identity && perspective == Identity
    {
      viewport := Rect(0, 0, 0, 0);
      gazePoint := Point(0.0, 0.0);
      viewAdjust, headPosition := ZeroVector, ZeroVector;
      headOrientation := Quaternion(1.0, 0.0, 0.0, 0.0);
      view, ortho, perspective := Identity, Identity, Identity;
    }

    function State(): ParametersState
      reads this
    {
      ParametersState(eye, viewport, gazePoint, viewAdjust, headPosition, headOrientation, view, ortho, perspective)
    }

    method SetEye(e: Eye)
      modifies this`eye
      ensures eye == e
    {
      eye := e;
    }

    method SetGazePoint(point: Point)
      modifies this`gazePoint
      ensures gazePoint == point
    {
      gazePoint := point;
    }

    method SetHeadOrientation(orientation: Quaternion)
      modifies this`headOrientation
      ensures headOrientation == orientation
    {
      headOrientation := orientation;
    }

    method SetHeadPosition(position: Vector3)
      modifies this`headPosition
      ensures headPosition == position
    {
      headPosition := position;
    }

    method SetView(m: Matrix)
      modifies this`view
      ensures view == m
    {
      view := m;
    }

    method SetViewAdjust(adjust: Vector3)
      modifies this`viewAdjust
      ensures viewAdjust == adjust
    {
      viewAdjust := adjust;
    }

    method SetViewport(r: Rect)
      modifies this`viewport
      ensures viewport == r
    {
      viewport := r;
    }

    method SetPerspective(m: Matrix)
      modifies this`perspective
      ensures perspective == m
    {
      perspective := m;
    }

    method SetOrtho(m: Matrix)
      modifies this`ortho
      ensures ortho == m
    {
      ortho := m;
    }
  }
}
