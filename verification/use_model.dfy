/** The `useModel` hook: on focus it schedules the builder on a short timer,
    the timer builds the model and stores it as the hook's state, and on blur
    the cleanup clears the timer, disposes the model built in that focus and
    resets the state to null. The builder is code outside the model; the
    model it returns is a parameter of the timer event. */
module UseModel {
  import opened SceneGraph

  /** The hook's state together with the effect's closure and, as history,
      every model the builder produced and every model handed (non-null) to
      `disposeModel`. */
  datatype Hook = Hook(
    focused: bool,              // the focus effect has run and its cleanup is pending
    timerPending: bool,         // the timer is scheduled and has neither fired nor been cleared
    loadedModel: Option<Node>,  // the effect's `loadedModel` variable
    model: Option<Node>,        // the React state the hook returns
    built: seq<Node>,
    disposed: seq<Node>)

  const Initial: Hook := Hook(false, false, None, None, [], [])

  /** Screen focus, the timer firing with the model the builder returned, and
      screen blur. An event that cannot happen in a state (a second focus, a
      cleared timer, a blur with no cleanup pending) changes nothing. */
  datatype FocusEvent = Focus | TimerFire(created: Node) | Blur

  function OptionSeq(o: Option<Node>): (r: seq<Node>)
    ensures |r| <= 1
  {
    if o.None? then [] else [o.value]
  }

  /** The model built in the current focus and not yet disposed, if any. */
  function Live(s: Hook): seq<Node> {
    if s.focused then OptionSeq(s.loadedModel) else []
  }

  /** The invariant of the lifecycle: a timer is only pending in a focus that
      has not built yet, the hook returns null unless focused and otherwise
      the model of this focus, and every model ever built has been disposed
      except the one live model of the current focus. */
  predicate Consistent(s: Hook) {
    && (s.timerPending ==> s.focused && s.loadedModel.None?)
    && (!s.focused ==> s.model.None? && !s.timerPending)
    && (s.focused ==> s.model == s.loadedModel)
    && s.built == s.disposed + Live(s)
  }

  function Step(s: Hook, e: FocusEvent): (r: Hook)
    ensures Consistent(s) ==> Consistent(r)
    ensures r.disposed == s.disposed || (e.Blur? && r.disposed == s.disposed + OptionSeq(s.loadedModel))
    ensures r.built == s.built || (e.TimerFire? && s.timerPending && r.built == s.built + [e.created])
    ensures Consistent(s) && e.Blur? ==> r.model.None? && !r.focused && !r.timerPending
  {
    match e
    case Focus =>
      if s.focused then s
      else s.(focused := true, timerPending := true, loadedModel := None)
    case TimerFire(created) =>
      if !s.timerPending then s
      else s.(timerPending := false, loadedModel := Some(created), model := Some(created),
              built := s.built + [created])
    case Blur =>
      if !s.focused then s
      else s.(focused := false, timerPending := false, model := None,
              disposed := s.disposed + OptionSeq(s.loadedModel))
  }

  function Run(s: Hook, es: seq<FocusEvent>): Hook
    decreases |es|
  {
    if es == [] then s else Run(Step(s, es[0]), es[1..])
  }

  lemma {:induction false} RunKeepsValid(s: Hook, es: seq<FocusEvent>)
    requires Consistent(s)
    ensures Consistent(Run(s, es))
    decreases |es|
  {
    if es != [] {
      RunKeepsValid(Step(s, es[0]), es[1..]);
    }
  }

  /** Over any sequence of focus, timer and blur events: once the screen is
      not focused every model ever built has been disposed, each exactly once
      and in the order built; while focused at most one model is live. */
  lemma NoModelOutlivesItsFocus(es: seq<FocusEvent>)
    ensures var r := Run(Initial, es);
            && (!r.focused ==> r.built == r.disposed)
            && |r.built| <= |r.disposed| + 1
  {
    RunKeepsValid(Initial, es);
  }

  /** The hook returns null from focus until the timer fires, and then exactly
      the model the builder returned. */
  lemma NullUntilBuilt(s: Hook, m: Node)
    requires Consistent(s) && !s.focused
    ensures Step(s, Focus).model == None
    ensures Run(s, [Focus, TimerFire(m)]).model == Some(m)
  {
    var s1 := Step(s, Focus);
    assert [Focus, TimerFire(m)][1..] == [TimerFire(m)];
    assert Run(s, [Focus, TimerFire(m)]) == Run(s1, [TimerFire(m)]);
    assert Run(s1, [TimerFire(m)]) == Run(Step(s1, TimerFire(m)), []);
  }

  /** Blur before the timer fires: the builder never ran, nothing is
      disposed, and the hook is back to null. */
  lemma BlurBeforeTimer(s: Hook)
    requires Consistent(s) && !s.focused
    ensures var r := Run(s, [Focus, Blur]);
            r.built == s.built && r.disposed == s.disposed && r.model == None && !r.timerPending
  {
    var s1 := Step(s, Focus);
    assert [Focus, Blur][1..] == [Blur];
    assert Run(s, [Focus, Blur]) == Run(s1, [Blur]);
    assert Run(s1, [Blur]) == Run(Step(s1, Blur), []);
  }

  /** Blur after the timer fires disposes exactly the model built in that
      focus and resets the hook to null. */
  lemma BlurAfterTimer(s: Hook, m: Node)
    requires Consistent(s) && !s.focused
    ensures var r := Run(s, [Focus, TimerFire(m), Blur]);
            r.built == s.built + [m] && r.disposed == s.disposed + [m] && r.model == None
  {
    var s1 := Step(s, Focus);
    var s2 := Step(s1, TimerFire(m));
    assert [Focus, TimerFire(m), Blur][1..] == [TimerFire(m), Blur];
    assert [TimerFire(m), Blur][1..] == [Blur];
    assert Run(s, [Focus, TimerFire(m), Blur]) == Run(s1, [TimerFire(m), Blur]);
    assert Run(s1, [TimerFire(m), Blur]) == Run(s2, [Blur]);
    assert Run(s2, [Blur]) == Run(Step(s2, Blur), []);
  }

  /** Within one focus (no blur among the events) the builder runs at most
      once, and only if the timer was still pending. */
  lemma {:induction false} AtMostOneBuildPerFocus(s: Hook, es: seq<FocusEvent>)
    requires Consistent(s) && s.focused
    requires forall k :: 0 <= k < |es| ==> !es[k].Blur?
    ensures |Run(s, es).built| <= |s.built| + (if s.timerPending then 1 else 0)
    decreases |es|
  {
    if es != [] {
      var t := Step(s, es[0]);
      AtMostOneBuildPerFocus(t, es[1..]);
    }
  }

  /** Every resource released so far: the disposals of each disposed model. */
  function AllDisposals(ds: seq<Node>): seq<ResourceId> {
    if ds == [] then [] else ModelDisposals(Some(ds[0])) + AllDisposals(ds[1..])
  }

  /** Disposing one more model adds exactly its disposals to the record. */
  lemma {:induction false} AllDisposalsAppend(ds: seq<Node>, o: Option<Node>)
    ensures AllDisposals(ds + OptionSeq(o)) == AllDisposals(ds) + ModelDisposals(o)
  {
    if o.None? {
      assert ds + [] == ds;
    } else if ds == [] {
      assert [] + [o.value] == [o.value] && [o.value][1..] == [];
    } else {
      var e := ds + [o.value];
      assert e[0] == ds[0] && e[1..] == ds[1..] + [o.value];
      AllDisposalsAppend(ds[1..], o);
    }
  }

  /** The resources `f` gives for each model of `ds`, model by model. */
  function Collect(f: Node -> seq<ResourceId>, ds: seq<Node>): seq<ResourceId> {
    if ds == [] then [] else f(ds[0]) + Collect(f, ds[1..])
  }

  /** What `f` gives for any one model is part of the collection. */
  lemma {:induction false} CollectHas(f: Node -> seq<ResourceId>, ds: seq<Node>, k: nat, id: ResourceId)
    requires k < |ds| && id in f(ds[k])
    ensures id in Collect(f, ds)
  {
    if k > 0 {
      assert ds[1..][k - 1] == ds[k];
      CollectHas(f, ds[1..], k - 1, id);
    }
  }

  /** The record of released resources collects each model's disposals. */
  lemma {:induction false} AllDisposalsCollects(ds: seq<Node>)
    ensures AllDisposals(ds) == Collect(x => ModelDisposals(Some(x)), ds)
  {
    if ds != [] {
      AllDisposalsCollects(ds[1..]);
    }
  }

  /** Every resource of every disposed model is among all those released. */
  lemma DisposedModelCounted(ds: seq<Node>, k: nat, id: ResourceId)
    requires k < |ds| && id in ModelDisposals(Some(ds[k]))
    ensures id in AllDisposals(ds)
  {
    var f := x => ModelDisposals(Some(x));
    assert f(ds[k]) == ModelDisposals(Some(ds[k]));
    CollectHas(f, ds, k, id);
    AllDisposalsCollects(ds);
  }

  /** Each count is its value at mount plus one for every time a disposed
      model disposed that resource. */
  ghost predicate CountsMatch(disposeCount: array<nat>, baseline: seq<nat>, disposed: seq<Node>)
    reads disposeCount
  {
    && |baseline| == disposeCount.Length
    && forall r :: 0 <= r < disposeCount.Length ==>
         disposeCount[r] == baseline[r] + multiset(AllDisposals(disposed))[r]
  }

  /** `disposeModel` on the closure's model, with the bookkeeping that every
      count stays its mount-time value plus the disposals of every disposed
      model. */
  method DisposeAndRecord(m: Option<Node>, disposeCount: array<nat>,
                          ghost disposed: seq<Node>, ghost baseline: seq<nat>)
    requires ResourcesBelow(m, disposeCount.Length)
    requires CountsMatch(disposeCount, baseline, disposed)
    modifies disposeCount
    ensures CountsMatch(disposeCount, baseline, disposed + OptionSeq(m))
    ensures forall r :: 0 <= r < disposeCount.Length ==>
              disposeCount[r] == old(disposeCount[r]) + multiset(ModelDisposals(m))[r]
  {
    DisposeModel(m, disposeCount);
    AllDisposalsAppend(disposed, m);
    assert multiset(AllDisposals(disposed + OptionSeq(m))) ==
           multiset(AllDisposals(disposed)) + multiset(ModelDisposals(m));
  }

  /** The hook as a component instance: the state, the timer and the closure
      variable are fields, and `disposeCount` counts the `dispose()` calls on
      each geometry and material. */
  class ModelHook {
    var focused: bool
    var timerPending: bool
    var loadedModel: Option<Node>
    var model: Option<Node>
    ghost var built: seq<Node>
    ghost var disposed: seq<Node>
    const disposeCount: array<nat>
    /** The counts before the hook was mounted. */
    ghost const baseline: seq<nat>

    ghost function State(): Hook
      reads this
    {
      Hook(focused, timerPending, loadedModel, model, built, disposed)
    }

    /** The lifecycle invariant, and the counts match the disposed models. */
    ghost predicate Valid()
      reads this, disposeCount
    {
      && Consistent(State())
      && ResourcesBelow(loadedModel, disposeCount.Length)
      && CountsMatch(disposeCount, baseline, disposed)
    }

    constructor (counts: array<nat>)
      ensures Valid() && State() == Initial && disposeCount == counts
    {
      focused, timerPending, loadedModel, model := false, false, None, None;
      built, disposed := [], [];
      disposeCount := counts;
      baseline := counts[..];
    }

    /** Once the screen has lost focus, every geometry and material of every
        mesh of every model the hook ever built has been disposed: its count
        is above its value at mount. */
    lemma BuiltModelsDisposed(k: nat, x: Node, id: ResourceId)
      requires Valid() && !focused
      requires k < |built| && InTree(x, built[k]) && MeshHolds(x, id) && id < disposeCount.Length
      ensures disposeCount[id] > baseline[id]
    {
      assert built == disposed;
      MeshResourceIsDisposed(built[k], x, id);
      DisposedModelCounted(disposed, k, id);
      assert multiset(AllDisposals(disposed))[id] > 0;
    }

    /** The focus effect: a fresh closure variable and a scheduled timer. */
    method OnFocus()
      requires Valid()
      modifies this
      ensures Valid() && State() == Step(old(State()), Focus)
    {
      if !focused {
        loadedModel := None;
        timerPending := true;
        focused := true;
      }
    }

    /** The timer callback: keep the built model in the closure and in the
        hook's state. */
    method OnTimerFire(created: Node)
      requires Valid() && ResourcesBelow(Some(created), disposeCount.Length)
      modifies this
      ensures Valid() && State() == Step(old(State()), TimerFire(created))
    {
      if timerPending {
        loadedModel := Some(created);
        model := Some(created);
        timerPending := false;
        built := built + [created];
      }
    }

    /** The cleanup: clear the timer, dispose the closure's model and reset
        the state. Exactly the resources of that model are counted once more. */
    method OnBlur()
      requires Valid()
      modifies this, disposeCount
      ensures Valid() && State() == Step(old(State()), Blur)
      ensures forall r :: 0 <= r < disposeCount.Length ==>
                disposeCount[r] == old(disposeCount[r]) +
                  multiset(ModelDisposals(if old(focused) then old(loadedModel) else None))[r]
    {
      if !focused {
        return;
      }
      ghost var before := State();
      timerPending := false;
      DisposeAndRecord(loadedModel, disposeCount, disposed, baseline);
      model := None;
      focused := false;
      disposed := disposed + OptionSeq(loadedModel);
      assert State() == Step(before, Blur);
    }
  }
}
