// Orbit camera state driven by right-button drags and the mouse wheel
// (ui/camera-controller.js). Placing the Three.js camera from the spherical
// coordinates (updateCameraPosition) is not part of this model.
module CameraControl {
  import Arith

  /** Math.PI as a double, written out exactly. */
  const Pi: real := 3.141592653589793

  const MinRadius: real := 2.0
  const MaxRadius: real := 50.0
  const ZoomSpeed: real := 0.3
  const MinPhi: real := 0.1
  const MaxPhi: real := Pi - 0.1
  const RotationSpeed: real := 0.005
  const RightButton: int := 2


  /** The signed zoom step of one wheel event: `delta * zoomSpeed * (1 + |delta| * 0.5)`. */
  function ZoomStep(deltaY: real): (z: real)
    ensures deltaY > 0.0 ==> z == 0.45
    ensures deltaY <= 0.0 ==> z == -0.45
  {
    var delta: real := if deltaY > 0.0 then 1.0 else -1.0;
    delta * ZoomSpeed * (1.0 + (if delta < 0.0 then -delta else delta) * 0.5)
  }

  /** The radius after one wheel event: always in [2, 50]; positive deltaY zooms out. */
  function ZoomedRadius(radius: real, deltaY: real): (r: real)
    ensures MinRadius <= r <= MaxRadius
    ensures MinRadius <= radius <= MaxRadius ==>
              if deltaY > 0.0 then radius <= r <= radius + 0.45 else radius - 0.45 <= r <= radius
  {
    Arith.Clamp(MinRadius, MaxRadius, radius + ZoomStep(deltaY))
  }

  /** Away from the bounds, zooming out and back in returns to the same radius. */
  lemma ZoomRoundTrip(radius: real)
    requires MinRadius <= radius <= MaxRadius - 0.45
    ensures ZoomedRadius(ZoomedRadius(radius, 1.0), -1.0) == radius
  {
  }

  /** The polar angle after a vertical drag of deltaY pixels, clamped against flipping. */
  function DraggedPhi(phi: real, deltaY: real): (p: real)
    ensures MinPhi <= p <= MaxPhi
    ensures MinPhi <= phi - deltaY * RotationSpeed <= MaxPhi ==> p == phi - deltaY * RotationSpeed
  {
    Arith.Clamp(MinPhi, MaxPhi, phi - deltaY * RotationSpeed)
  }

  class CameraController {
    var isRotating: bool
    var lastMouseX: real
    var lastMouseY: real
    var radius: real
    var theta: real
    var phi: real

    constructor ()
      ensures !isRotating && lastMouseX == 0.0 && lastMouseY == 0.0
      ensures radius == 10.0 && theta == 0.0 && phi == Pi / 2.0
    {
      isRotating := false;
      lastMouseX, lastMouseY := 0.0, 0.0;
      radius, theta, phi := 10.0, 0.0, Pi / 2.0;
    }

    /** mousedown: only the right button starts a rotation and records the pointer. */
    method OnMouseDown(button: int, clientX: real, clientY: real)
      modifies this
      ensures button == RightButton ==> isRotating && lastMouseX == clientX && lastMouseY == clientY
      ensures button != RightButton ==> isRotating == old(isRotating)
                                        && lastMouseX == old(lastMouseX) && lastMouseY == old(lastMouseY)
      ensures radius == old(radius) && theta == old(theta) && phi == old(phi)
    {
      if button == RightButton {
        isRotating := true;
        lastMouseX := clientX;
        lastMouseY := clientY;
      }
    }

    /** mousemove: while rotating, turn by the pointer delta and keep phi in its bounds. */
    method OnMouseMove(clientX: real, clientY: real)
      modifies this
      ensures !old(isRotating) ==> unchanged(this)
      ensures old(isRotating) ==>
                && theta == old(theta) + (clientX - old(lastMouseX)) * RotationSpeed
                && phi == DraggedPhi(old(phi), clientY - old(lastMouseY))
                && MinPhi <= phi <= MaxPhi
                && lastMouseX == clientX && lastMouseY == clientY
                && isRotating && radius == old(radius)
    {
      if isRotating {
        var deltaX := clientX - lastMouseX;
        var deltaY := clientY - lastMouseY;
        theta := theta + deltaX * RotationSpeed;
        phi := phi - deltaY * RotationSpeed;
        phi := Arith.Clamp(MinPhi, MaxPhi, phi);
        lastMouseX := clientX;
        lastMouseY := clientY;
      }
    }

    /** mouseup: only the right button ends a rotation. */
    method OnMouseUp(button: int)
      modifies this
      ensures isRotating == (old(isRotating) && button != RightButton)
      ensures radius == old(radius) && theta == old(theta) && phi == old(phi)
      ensures lastMouseX == old(lastMouseX) && lastMouseY == old(lastMouseY)
    {
      if button == RightButton {
        isRotating := false;
      }
    }

    /** wheel: one clamped zoom step. */
    method OnWheel(deltaY: real)
      modifies this
      ensures radius == ZoomedRadius(old(radius), deltaY)
      ensures MinRadius <= radius <= MaxRadius
      ensures theta == old(theta) && phi == old(phi) && isRotating == old(isRotating)
      ensures lastMouseX == old(lastMouseX) && lastMouseY == old(lastMouseY)
    {
      var delta: real := if deltaY > 0.0 then 1.0 else -1.0;
      var zoomAmount := delta * ZoomSpeed * (1.0 + (if delta < 0.0 then -delta else delta) * 0.5);
      radius := radius + zoomAmount;
      radius := Arith.Clamp(MinRadius, MaxRadius, radius);
    }

    method ResetCamera()
      modifies this
      ensures radius == 10.0 && theta == 0.0 && phi == Pi / 2.0
      ensures isRotating == old(isRotating)
      ensures lastMouseX == old(lastMouseX) && lastMouseY == old(lastMouseY)
    {
      radius, theta, phi := 10.0, 0.0, Pi / 2.0;
    }

    /** setCameraPosition stores its arguments as given, without clamping. */
    method SetCameraPosition(r: real, t: real, p: real)
      modifies this
      ensures radius == r && theta == t && phi == p
      ensures isRotating == old(isRotating)
      ensures lastMouseX == old(lastMouseX) && lastMouseY == old(lastMouseY)
    {
      radius, theta, phi := r, t, p;
    }
  }

  /** Any run of wheel events leaves the radius in [2, 50], whatever it started at. */
  function WheelRun(radius: real, deltas: seq<real>): (r: real)
    ensures |deltas| > 0 ==> MinRadius <= r <= MaxRadius
    ensures |deltas| == 0 ==> r == radius
    decreases deltas
  {
    if deltas == [] then radius else WheelRun(ZoomedRadius(radius, deltas[0]), deltas[1..])
  }
}
