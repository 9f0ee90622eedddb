/** The orbit/zoom gesture arithmetic shared by the two scene components:
    five mutable refs, updated by the pan-responder grant, move and release
    callbacks and by the web wheel handler. Each component's pinch rule lives
    in its own module; everything else is identical in both and lives here. */
module OrbitControls {

  const MinDistance: real := 500.0
  const MaxDistance: real := 3500.0
  const InitialDistance: real := 2500.0
  /** Radians of orbit per pixel of horizontal drag. */
  const RotateSensitivity: real := 0.01
  /** Distance units per unit of wheel `deltaY`. */
  const ZoomSensitivity: real := 1.5

  predicate InRange(d: real) {
    MinDistance <= d <= MaxDistance
  }

  /** `Math.max(500, Math.min(3500, d))`. */
  function Clamp(d: real): (r: real)
    ensures InRange(r)
    ensures InRange(d) ==> r == d
    ensures d < MinDistance ==> r == MinDistance
    ensures d > MaxDistance ==> r == MaxDistance
  {
    var upper := if d < MaxDistance then d else MaxDistance;
    if MinDistance < upper then upper else MinDistance
  }

  lemma ClampMonotone(a: real, b: real)
    requires a <= b
    ensures Clamp(a) <= Clamp(b)
  {
  }

  /** The refs `cameraAngle`, `startAngle`, `cameraDistance`,
      `startCameraDistance` and `startPinchDistance`. */
  datatype Refs = Refs(cameraAngle: real, startAngle: real, cameraDistance: real,
                       startCameraDistance: real, startPinchDistance: real)

  /** The values the refs are created with. */
  const Initial: Refs := Refs(0.0, 0.0, InitialDistance, 0.0, 0.0)

  /** An input event. `touches` is `gestureState.numberActiveTouches`, `dx` the
      gesture's accumulated horizontal displacement, `separation` the
      `Math.hypot` distance between the first two touches. */
  datatype Event =
    | Grant
    | Move(touches: int, dx: real, separation: real)
    | Release
    | Wheel(deltaY: real)

  /** Two coinciding touches would divide by zero in JavaScript (Infinity or NaN);
      such frames are outside the model. */
  predicate WellFormed(e: Event) {
    e.Move? && e.touches == 2 ==> e.separation > 0.0
  }

  predicate AllWellFormed(es: seq<Event>) {
    forall k :: 0 <= k < |es| ==> WellFormed(es[k])
  }

  /** `onPanResponderGrant`: snapshot the angle and the distance as the
      baseline of the new gesture. */
  function OnGrant(s: Refs): (r: Refs)
    ensures r.startAngle == s.cameraAngle && r.startCameraDistance == s.cameraDistance
    ensures r.cameraAngle == s.cameraAngle && r.cameraDistance == s.cameraDistance
    ensures r.startPinchDistance == s.startPinchDistance
  {
    s.(startAngle := s.cameraAngle, startCameraDistance := s.cameraDistance)
  }

  /** A one-finger move: forget any pinch baseline and set the angle from the
      gesture baseline and the accumulated drag. */
  function OnRotate(s: Refs, dx: real): (r: Refs)
    ensures r.startPinchDistance == 0.0
    ensures r.cameraDistance == s.cameraDistance && r.startCameraDistance == s.startCameraDistance
    ensures r.startAngle == s.startAngle
    // a hundredth of a radian per pixel of drag, against the drag direction
    ensures r.cameraAngle == s.startAngle - dx / 100.0
    ensures dx == 0.0 ==> r.cameraAngle == s.startAngle
    ensures dx > 0.0 ==> r.cameraAngle < s.startAngle
    ensures dx < 0.0 ==> r.cameraAngle > s.startAngle
  {
    s.(startPinchDistance := 0.0, cameraAngle := s.startAngle - dx * RotateSensitivity)
  }

  /** `onPanResponderRelease`: only the pinch baseline is reset. */
  function OnRelease(s: Refs): (r: Refs)
    ensures r.startPinchDistance == 0.0
    ensures r.cameraAngle == s.cameraAngle && r.startAngle == s.startAngle
    ensures r.cameraDistance == s.cameraDistance && r.startCameraDistance == s.startCameraDistance
  {
    s.(startPinchDistance := 0.0)
  }

  /** The web wheel handler: move the distance by `deltaY * 1.5` and clamp. */
  function OnWheel(s: Refs, deltaY: real): (r: Refs)
    ensures InRange(r.cameraDistance)
    ensures r.cameraAngle == s.cameraAngle && r.startAngle == s.startAngle
    ensures r.startCameraDistance == s.startCameraDistance
    ensures r.startPinchDistance == s.startPinchDistance
    ensures InRange(s.cameraDistance) && deltaY >= 0.0 ==> r.cameraDistance >= s.cameraDistance
    ensures InRange(s.cameraDistance) && deltaY <= 0.0 ==> r.cameraDistance <= s.cameraDistance
    ensures InRange(s.cameraDistance) && deltaY == 0.0 ==> r == s
  {
    s.(cameraDistance := Clamp(s.cameraDistance + deltaY * ZoomSensitivity))
  }

  /** The angle of a one-finger move is absolute from the gesture baseline: of
      two moves in one gesture the second alone decides the result, so
      repeating a move changes nothing and a move back to `dx == 0` restores the
      start angle. */
  lemma RotateIsAbsolute(s: Refs, dx1: real, dx2: real)
    ensures OnRotate(OnRotate(s, dx1), dx2) == OnRotate(s, dx2)
    ensures OnRotate(OnRotate(s, dx1), dx1) == OnRotate(s, dx1)
    ensures OnRotate(OnRotate(s, dx1), 0.0).cameraAngle == s.startAngle
  {
  }

  /** Grant is idempotent: a second grant with no event in between takes the
      same snapshot. */
  lemma GrantIdempotent(s: Refs)
    ensures OnGrant(OnGrant(s)) == OnGrant(s)
  {
  }

  /** The rates: a 100-pixel drag to the right turns the camera by one radian,
      and a wheel step of 100 moves it 150 units out, unless the range stops it. */
  lemma RotateAndWheelRates(s: Refs)
    ensures OnRotate(s, 100.0).cameraAngle == s.startAngle - 1.0
    ensures OnRotate(s, -100.0).cameraAngle == s.startAngle + 1.0
    ensures MinDistance <= s.cameraDistance <= MaxDistance - 150.0 ==>
              OnWheel(s, 100.0).cameraDistance == s.cameraDistance + 150.0
    ensures OnWheel(s, -100.0).cameraDistance == Clamp(s.cameraDistance - 150.0)
  {
  }

  /** Dragging by `dx` in one gesture and by `-dx` in the next brings the
      camera back to the angle it had: each gesture starts from the angle the
      previous one left. */
  lemma DragThereAndBack(s: Refs, dx: real)
    ensures OnRotate(OnGrant(OnRelease(OnRotate(OnGrant(s), dx))), -dx).cameraAngle == s.cameraAngle
  {
  }
}
