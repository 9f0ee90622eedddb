/** `SceneViewer`: the same five refs and callbacks as `SceneContainer`,
    except that the first two-finger frame records the baseline and then
    applies the (unit) scale factor at once. */
module SceneViewer {
  import opened OrbitControls
  import SceneContainer

  /** A two-finger move: adopt the current separation as baseline if none is
      recorded, then set the distance from the grant-time distance and the
      ratio of the separations. */
  function OnPinch(s: Refs, separation: real): (r: Refs)
    requires separation > 0.0
    ensures InRange(r.cameraDistance)
    ensures r.cameraAngle == s.cameraAngle && r.startAngle == s.startAngle
    ensures r.startCameraDistance == s.startCameraDistance
    ensures r.startPinchDistance == if s.startPinchDistance == 0.0 then separation else s.startPinchDistance
    ensures s.startPinchDistance == 0.0 ==> r.cameraDistance == Clamp(s.startCameraDistance)
  {
    var baseline := if s.startPinchDistance == 0.0 then separation else s.startPinchDistance;
    var scaleFactor := separation / baseline;
    assert separation / separation == 1.0;
    s.(startPinchDistance := baseline, cameraDistance := Clamp(s.startCameraDistance / scaleFactor))
  }

  /** `SceneViewer`'s own `onPanResponderMove`, which repeats the container's
      dispatch but calls this component's pinch rule. */
  function OnMove(s: Refs, touches: int, dx: real, separation: real): (r: Refs)
    requires touches == 2 ==> separation > 0.0
    ensures touches != 1 && touches != 2 ==> r == s
    ensures touches == 1 ==> r == OnRotate(s, dx)
    ensures touches == 2 ==> r == OnPinch(s, separation)
  {
    if touches == 2 then OnPinch(s, separation)
    else if touches == 1 then OnRotate(s, dx)
    else s
  }

  function Step(s: Refs, e: Event): (r: Refs)
    requires WellFormed(e)
    ensures InRange(s.cameraDistance) ==> InRange(r.cameraDistance)
    ensures (e.Wheel? || (e.Move? && e.touches == 2)) ==> InRange(r.cameraDistance)
  {
    match e
    case Grant => OrbitControls.OnGrant(s)
    case Move(touches, dx, separation) => OnMove(s, touches, dx, separation)
    case Release => OrbitControls.OnRelease(s)
    case Wheel(deltaY) => OrbitControls.OnWheel(s, deltaY)
  }

  function Run(s: Refs, es: seq<Event>): Refs
    requires AllWellFormed(es)
    decreases |es|
  {
    if es == [] then s else Run(Step(s, es[0]), es[1..])
  }

  /** The container's range invariant, proved again over this component's own steps. */
  lemma {:induction false} RunKeepsDistanceInRange(s: Refs, es: seq<Event>)
    requires AllWellFormed(es)
    requires InRange(s.cameraDistance)
    ensures InRange(Run(s, es).cameraDistance)
    decreases |es|
  {
    if es != [] {
      RunKeepsDistanceInRange(Step(s, es[0]), es[1..]);
    }
  }

  /** Scaling the recorded baseline and the current separation by the same
      factor gives the same distance. */
  lemma PinchScaleInvariant(s: Refs, k: real, separation: real)
    requires k > 0.0 && separation > 0.0 && s.startPinchDistance != 0.0
    ensures OnPinch(s.(startPinchDistance := k * s.startPinchDistance), k * separation).cameraDistance
            == OnPinch(s, separation).cameraDistance
  {
    var b := s.startPinchDistance;
    assert (k * separation) / (k * b) == separation / b;
  }

  /** Once a baseline is recorded the two components compute the same frame;
      on the first frame `SceneContainer` leaves the distance alone while
      `SceneViewer` sets it to the clamped grant-time distance. */
  lemma PinchAgreesWithContainerAfterFirstFrame(s: Refs, separation: real)
    requires separation > 0.0
    ensures s.startPinchDistance != 0.0 ==> OnPinch(s, separation) == SceneContainer.OnPinch(s, separation)
    ensures s.startPinchDistance == 0.0 ==>
              OnPinch(s, separation) == SceneContainer.OnPinch(s, separation).(cameraDistance := Clamp(s.startCameraDistance))
  {
  }

  /** Within one gesture, after a pinch moved the camera and a finger was
      lifted, the next two-finger frame snaps the distance back to the
      grant-time distance in `SceneViewer`, and keeps it in `SceneContainer`. */
  lemma RepinchFirstFrameDiffers(s: Refs, b: real, c: real, dx: real, b2: real)
    requires b > 0.0 && c > 0.0 && b2 > 0.0
    requires s.startPinchDistance == 0.0 && InRange(s.startCameraDistance)
    ensures var pinched := SceneContainer.OnPinch(SceneContainer.OnPinch(s, b), c);
            SceneContainer.OnPinch(OnRotate(pinched, dx), b2).cameraDistance == pinched.cameraDistance
    ensures var pinched := OnPinch(OnPinch(s, b), c);
            OnPinch(OnRotate(pinched, dx), b2).cameraDistance == s.startCameraDistance
    ensures var pinched := SceneContainer.OnPinch(SceneContainer.OnPinch(s, b), c);
            pinched.cameraDistance != s.startCameraDistance ==>
              SceneContainer.OnPinch(OnRotate(pinched, dx), b2).cameraDistance
              != OnPinch(OnRotate(OnPinch(OnPinch(s, b), c), dx), b2).cameraDistance
  {
    assert b / b == 1.0;
  }

  /** A concrete gesture on which the components part: from a grant at 2500,
      spreading the fingers from 1 to 2 zooms both to 1250; after a finger is
      lifted and put down again, `SceneContainer` stays at 1250 while
      `SceneViewer` jumps back to 2500. */
  lemma RepinchDiffersOnExample(dx: real, b2: real)
    requires b2 > 0.0
    ensures var s := OrbitControls.OnGrant(Initial);
            var container := SceneContainer.OnPinch(SceneContainer.OnPinch(s, 1.0), 2.0);
            var viewer := OnPinch(OnPinch(s, 1.0), 2.0);
            && container.cameraDistance == 1250.0 && viewer.cameraDistance == 1250.0
            && SceneContainer.OnPinch(OnRotate(container, dx), b2).cameraDistance == 1250.0
            && OnPinch(OnRotate(viewer, dx), b2).cameraDistance == 2500.0
  {
    var s := OrbitControls.OnGrant(Initial);
    RepinchFirstFrameDiffers(s, 1.0, 2.0, dx, b2);
    assert InitialDistance / (2.0 / 1.0) == 1250.0;
  }

  class OrbitRefs {
    var cameraAngle: real
    var startAngle: real
    var cameraDistance: real
    var startCameraDistance: real
    var startPinchDistance: real

    function Snapshot(): Refs
      reads this
    {
      Refs(cameraAngle, startAngle, cameraDistance, startCameraDistance, startPinchDistance)
    }

    ghost predicate Valid()
      reads this
    {
      InRange(cameraDistance)
    }

    constructor ()
      ensures Valid() && Snapshot() == Initial
    {
      cameraAngle, startAngle := 0.0, 0.0;
      cameraDistance := InitialDistance;
      startCameraDistance, startPinchDistance := 0.0, 0.0;
    }

    method OnPanResponderGrant()
      requires Valid()
      modifies this
      ensures Valid() && Snapshot() == Step(old(Snapshot()), Event.Grant)
    {
      startAngle := cameraAngle;
      startCameraDistance := cameraDistance;
    }

    method OnPanResponderMove(touches: int, dx: real, separation: real)
      requires Valid() && (touches == 2 ==> separation > 0.0)
      modifies this
      ensures Valid() && Snapshot() == Step(old(Snapshot()), Event.Move(touches, dx, separation))
    {
      if touches == 2 {
        if startPinchDistance == 0.0 {
          startPinchDistance := separation;
        }
        var scaleFactor := separation / startPinchDistance;
        cameraDistance := Clamp(startCameraDistance / scaleFactor);
      } else if touches == 1 {
        startPinchDistance := 0.0;
        cameraAngle := startAngle - dx * RotateSensitivity;
      }
    }

    method OnPanResponderRelease()
      requires Valid()
      modifies this
      ensures Valid() && Snapshot() == Step(old(Snapshot()), Event.Release)
    {
      startPinchDistance := 0.0;
    }

    method HandleWheel(deltaY: real)
      requires Valid()
      modifies this
      ensures Valid() && Snapshot() == Step(old(Snapshot()), Event.Wheel(deltaY))
    {
      var newDistance := cameraDistance + deltaY * 1.5;
      cameraDistance := Clamp(newDistance);
    }
  }
}
