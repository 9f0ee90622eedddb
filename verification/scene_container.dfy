/** `SceneContainer`: the orbit/zoom pan responder and wheel handler, and the
    focus lifecycle of an optional model builder with its loading flag. */
module SceneContainer {
  import opened OrbitControls
  import opened SceneGraph
  import UseModel

  // ---------------------------------------------------------------------
  // Gestures

  /** A two-finger move. The first frame after the baseline was reset only
      records the finger separation; later frames divide the grant-time
      distance by the ratio of the current separation to that baseline. */
  function OnPinch(s: Refs, separation: real): (r: Refs)
    requires separation > 0.0
    ensures r.cameraAngle == s.cameraAngle && r.startAngle == s.startAngle
    ensures r.startCameraDistance == s.startCameraDistance
    ensures s.startPinchDistance == 0.0 ==> r == s.(startPinchDistance := separation)
    ensures s.startPinchDistance != 0.0 ==>
              r.startPinchDistance == s.startPinchDistance && InRange(r.cameraDistance)
  {
    if s.startPinchDistance == 0.0 then
      s.(startPinchDistance := separation)
    else
      var scaleFactor := separation / s.startPinchDistance;
      s.(cameraDistance := Clamp(s.startCameraDistance / scaleFactor))
  }

  /** `onPanResponderMove`: two touches pinch, one touch rotates, any other
      count changes nothing. */
  function OnMove(s: Refs, touches: int, dx: real, separation: real): (r: Refs)
    requires touches == 2 ==> separation > 0.0
    ensures touches != 1 && touches != 2 ==> r == s
    ensures touches == 1 ==> r == OnRotate(s, dx)
    ensures touches == 2 ==> r == OnPinch(s, separation)
  {
    if touches == 2 then OnPinch(s, separation)
    else if touches == 1 then OnRotate(s, dx)
    else s
  }

  function Step(s: Refs, e: Event): (r: Refs)
    requires WellFormed(e)
    ensures InRange(s.cameraDistance) ==> InRange(r.cameraDistance)
    ensures e.Wheel? ==> InRange(r.cameraDistance)
  {
    match e
    case Grant => OrbitControls.OnGrant(s)
    case Move(touches, dx, separation) => OnMove(s, touches, dx, separation)
    case Release => OrbitControls.OnRelease(s)
    case Wheel(deltaY) => OrbitControls.OnWheel(s, deltaY)
  }

  function Run(s: Refs, es: seq<Event>): Refs
    requires AllWellFormed(es)
    decreases |es|
  {
    if es == [] then s else Run(Step(s, es[0]), es[1..])
  }

  /** Starting from the initial refs, no sequence of gestures and wheel events
      takes the distance out of [500, 3500]. */
  lemma {:induction false} RunKeepsDistanceInRange(s: Refs, es: seq<Event>)
    requires AllWellFormed(es)
    requires InRange(s.cameraDistance)
    ensures InRange(Run(s, es).cameraDistance)
    decreases |es|
  {
    if es != [] {
      RunKeepsDistanceInRange(Step(s, es[0]), es[1..]);
    }
  }

  /** Pinch zoom is scale invariant: multiplying the baseline and the current
      separation by the same factor gives the same distance. */
  lemma PinchScaleInvariant(s: Refs, k: real, separation: real)
    requires k > 0.0 && separation > 0.0 && s.startPinchDistance != 0.0
    ensures OnPinch(s.(startPinchDistance := k * s.startPinchDistance), k * separation).cameraDistance
            == OnPinch(s, separation).cameraDistance
  {
    var b := s.startPinchDistance;
    assert (k * separation) / (k * b) == separation / b;
  }

  /** A pinch frame's distance depends on the grant-time distance and the two
      separations only, not on the distance reached by earlier frames. */
  lemma PinchIgnoresCurrentDistance(s: Refs, d: real, separation: real)
    requires separation > 0.0 && s.startPinchDistance != 0.0
    ensures OnPinch(s.(cameraDistance := d), separation) == OnPinch(s, separation)
  {
  }

  /** Spreading the fingers never zooms out and pinching them never zooms in,
      relative to the (clamped) grant-time distance. */
  lemma PinchDirection(s: Refs, separation: real)
    requires separation > 0.0 && s.startPinchDistance > 0.0 && s.startCameraDistance >= 0.0
    ensures separation >= s.startPinchDistance ==>
              OnPinch(s, separation).cameraDistance <= Clamp(s.startCameraDistance)
    ensures separation <= s.startPinchDistance ==>
              OnPinch(s, separation).cameraDistance >= Clamp(s.startCameraDistance)
  {
    var b := s.startPinchDistance;
    var d := s.startCameraDistance;
    assert d / (separation / b) == d * b / separation;
    assert d * b / separation - d == d * (b - separation) / separation;
    if separation >= b {
      assert d * (b - separation) <= 0.0;
      ClampMonotone(d * b / separation, d);
    }
    if separation <= b {
      assert d * (b - separation) >= 0.0;
      ClampMonotone(d, d * b / separation);
    }
  }

  /** Lifting a finger and pinching again within the same gesture records a
      new baseline without moving the camera, and the next frame scales the
      grant-time distance again, whatever distance the first pinch reached. */
  lemma RepinchScalesFromGrantDistance(t: Refs, dx: real, b: real, c: real)
    requires b > 0.0 && c > 0.0
    ensures var first := OnPinch(OnRotate(t, dx), b);
            first.cameraDistance == t.cameraDistance &&
            OnPinch(first, c).cameraDistance == Clamp(t.startCameraDistance / (c / b))
  {
  }

  // ---------------------------------------------------------------------
  // Model lifecycle

  /** With a builder the component runs exactly the `useModel` lifecycle;
      without one, focus schedules nothing and registers no cleanup. */
  function LifecycleStep(hasBuilder: bool, s: UseModel.Hook, e: UseModel.FocusEvent): (r: UseModel.Hook)
    ensures UseModel.Consistent(s) ==> UseModel.Consistent(r)
    ensures !hasBuilder ==> r == s
    ensures hasBuilder ==> r == UseModel.Step(s, e)
  {
    if hasBuilder then UseModel.Step(s, e) else s
  }

  function LifecycleRun(hasBuilder: bool, s: UseModel.Hook, es: seq<UseModel.FocusEvent>): UseModel.Hook
    decreases |es|
  {
    if es == [] then s else LifecycleRun(hasBuilder, LifecycleStep(hasBuilder, s, es[0]), es[1..])
  }

  /** `isLoading`: a builder was given and no model is present. */
  predicate IsLoading(hasBuilder: bool, s: UseModel.Hook) {
    hasBuilder && s.model.None?
  }

  lemma {:induction false} LifecycleRunWithBuilder(s: UseModel.Hook, es: seq<UseModel.FocusEvent>)
    ensures LifecycleRun(true, s, es) == UseModel.Run(s, es)
    decreases |es|
  {
    if es != [] {
      LifecycleRunWithBuilder(UseModel.Step(s, es[0]), es[1..]);
    }
  }

  /** Without a builder nothing ever happens: no model, no timer, and the
      screen is never loading. */
  lemma {:induction false} NeverLoadingWithoutBuilder(s: UseModel.Hook, es: seq<UseModel.FocusEvent>)
    ensures LifecycleRun(false, s, es) == s
    ensures !IsLoading(false, LifecycleRun(false, s, es))
    decreases |es|
  {
    if es != [] {
      NeverLoadingWithoutBuilder(s, es[1..]);
    }
  }

  /** With a builder, the screen is loading from focus until the timer fires,
      then shows exactly the built model; blur disposes that model and
      clears it. */
  lemma LoadingUntilTimerFires(s: UseModel.Hook, m: Node)
    requires UseModel.Consistent(s) && !s.focused
    ensures IsLoading(true, LifecycleStep(true, s, UseModel.Focus))
    ensures var r := LifecycleRun(true, s, [UseModel.Focus, UseModel.TimerFire(m)]);
            !IsLoading(true, r) && r.model == Some(m)
    ensures var r := LifecycleRun(true, s, [UseModel.Focus, UseModel.TimerFire(m), UseModel.Blur]);
            r.model == None && r.disposed == s.disposed + [m]
  {
    LifecycleRunWithBuilder(s, [UseModel.Focus, UseModel.TimerFire(m)]);
    LifecycleRunWithBuilder(s, [UseModel.Focus, UseModel.TimerFire(m), UseModel.Blur]);
    UseModel.NullUntilBuilt(s, m);
    UseModel.BlurAfterTimer(s, m);
  }

  // ---------------------------------------------------------------------
  // The component instance

  /** The five refs and the pan-responder and wheel callbacks that update
      them in place. */
  class OrbitRefs {
    var cameraAngle: real
    var startAngle: real
    var cameraDistance: real
    var startCameraDistance: real
    var startPinchDistance: real

    function Snapshot(): Refs
      reads this
    {
      Refs(cameraAngle, startAngle, cameraDistance, startCameraDistance, startPinchDistance)
    }

    ghost predicate Valid()
      reads this
    {
      InRange(cameraDistance)
    }

    constructor ()
      ensures Valid() && Snapshot() == Initial
    {
      cameraAngle, startAngle := 0.0, 0.0;
      cameraDistance := InitialDistance;
      startCameraDistance, startPinchDistance := 0.0, 0.0;
    }

    method OnPanResponderGrant()
      requires Valid()
      modifies this
      ensures Valid() && Snapshot() == Step(old(Snapshot()), Event.Grant)
    {
      startAngle := cameraAngle;
      startCameraDistance := cameraDistance;
    }

    method OnPanResponderMove(touches: int, dx: real, separation: real)
      requires Valid() && (touches == 2 ==> separation > 0.0)
      modifies this
      ensures Valid() && Snapshot() == Step(old(Snapshot()), Event.Move(touches, dx, separation))
    {
      if touches == 2 {
        if startPinchDistance == 0.0 {
          startPinchDistance := separation;
        } else {
          var scaleFactor := separation / startPinchDistance;
          var newDistance := startCameraDistance / scaleFactor;
          cameraDistance := Clamp(newDistance);
        }
      } else if touches == 1 {
        startPinchDistance := 0.0;
        cameraAngle := startAngle - dx * RotateSensitivity;
      }
    }

    method OnPanResponderRelease()
      requires Valid()
      modifies this
      ensures Valid() && Snapshot() == Step(old(Snapshot()), Event.Release)
    {
      startPinchDistance := 0.0;
    }

    method HandleWheel(deltaY: real)
      requires Valid()
      modifies this
      ensures Valid() && Snapshot() == Step(old(Snapshot()), Event.Wheel(deltaY))
    {
      var newDistance := cameraDistance + deltaY * ZoomSensitivity;
      cameraDistance := Clamp(newDistance);
    }
  }

  /** The focus effect of the component with its optional builder: the model
      state, the scheduled timer, the effect's `modelToDispose` variable, and
      the dispose counts of the GPU resources. */
  class ModelLifecycle {
    const hasBuilder: bool
    var focused: bool
    var timerPending: bool
    var modelToDispose: Option<Node>
    var model: Option<Node>
    ghost var built: seq<Node>
    ghost var disposed: seq<Node>
    const disposeCount: array<nat>
    ghost const baseline: seq<nat>

    ghost function State(): UseModel.Hook
      reads this
    {
      UseModel.Hook(focused, timerPending, modelToDispose, model, built, disposed)
    }

    ghost predicate Valid()
      reads this, disposeCount
    {
      && UseModel.Consistent(State())
      && (!hasBuilder ==> State() == UseModel.Initial)
      && ResourcesBelow(modelToDispose, disposeCount.Length)
      && UseModel.CountsMatch(disposeCount, baseline, disposed)
    }

    /** `isLoading`. */
    function Loading(): (b: bool)
      reads this
      ensures b == IsLoading(hasBuilder, State())
    {
      hasBuilder && model.None?
    }

    constructor (hasBuilder: bool, counts: array<nat>)
      ensures Valid() && State() == UseModel.Initial
      ensures this.hasBuilder == hasBuilder && disposeCount == counts
    {
      this.hasBuilder := hasBuilder;
      focused, timerPending, modelToDispose, model := false, false, None, None;
      built, disposed := [], [];
      disposeCount := counts;
      baseline := counts[..];
    }

    /** Once the screen has lost focus, every geometry and material of every
        mesh of every model the component ever built has been disposed: its
        count is above its value at mount. */
    lemma BuiltModelsDisposed(k: nat, x: Node, id: ResourceId)
      requires Valid() && !focused
      requires k < |built| && InTree(x, built[k]) && MeshHolds(x, id) && id < disposeCount.Length
      ensures disposeCount[id] > baseline[id]
    {
      assert built == disposed;
      MeshResourceIsDisposed(built[k], x, id);
      UseModel.DisposedModelCounted(disposed, k, id);
      assert multiset(UseModel.AllDisposals(disposed))[id] > 0;
    }

    method OnFocus()
      requires Valid()
      modifies this
      ensures Valid() && State() == LifecycleStep(hasBuilder, old(State()), UseModel.Focus)
    {
      if hasBuilder && !focused {
        modelToDispose := None;
        timerPending := true;
        focused := true;
      }
    }

    method OnTimerFire(created: Node)
      requires Valid() && ResourcesBelow(Some(created), disposeCount.Length)
      modifies this
      ensures Valid() && State() == LifecycleStep(hasBuilder, old(State()), UseModel.TimerFire(created))
    {
      if timerPending {
        modelToDispose := Some(created);
        model := Some(created);
        timerPending := false;
        built := built + [created];
      }
    }

    method OnBlur()
      requires Valid()
      modifies this, disposeCount
      ensures Valid() && State() == LifecycleStep(hasBuilder, old(State()), UseModel.Blur)
      ensures forall r :: 0 <= r < disposeCount.Length ==>
                disposeCount[r] == old(disposeCount[r]) +
                  multiset(ModelDisposals(if old(focused) then old(modelToDispose) else None))[r]
    {
      if !focused {
        return;
      }
      assert hasBuilder;
      ghost var before := State();
      timerPending := false;
      UseModel.DisposeAndRecord(modelToDispose, disposeCount, disposed, baseline);
      model := None;
      focused := false;
      disposed := disposed + UseModel.OptionSeq(modelToDispose);
      assert State() == UseModel.Step(before, UseModel.Blur);
    }
  }
}
