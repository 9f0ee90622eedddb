# EqualsOS scene core in Dafny

This project models the core of the EqualsOS app's 3D scenes:

- the orbit/zoom controller shared by `SceneContainer` and `SceneViewer`
  (five refs updated in place by the pan-responder callbacks and the web
  wheel handler);
- the model lifecycle: the focus effect of `SceneContainer` and the
  `useModel` hook, which build a model on a 16 ms timer after focus and
  dispose it on blur, and `disposeModel`, which walks the scene tree and
  disposes each mesh's geometry and materials;
- the procedural builders `createBook`, `createBookshelf` and
  `createPallet`, as the list of parts each adds to its group.

Modules: `Geometry` (vectors and axis-aligned boxes), `OrbitControls`
(refs, clamping and the handlers both components share), `SceneContainer`
and `SceneViewer` (each component's pinch rule, event runs, and a class
holding the refs), `SceneGraph` (scene tree, traversal, `disposeModel`
over an array of dispose counts), `UseModel` (the hook's lifecycle as a
step function and as a class), `LibraryBook`, `Bookshelf` and
`LoscamPallet`.

Each handler is a pure step function over a `Refs` value, and each class
method that updates fields in place is proved to produce exactly that
step's result; the properties are proved about the step functions and
their runs over arbitrary event sequences. Disposal is counted: an
`array<nat>` indexed by resource id holds how often each geometry or
material was disposed, and the methods state how every count changes.

Numbers are exact reals. A two-finger move carries the finger
separation (`Math.hypot` of the two touches) as an input, and only
separations greater than zero are modelled.

## Model

| member | source | states |
|---|---|---|
| OrbitControls.Clamp | components/SceneContainer.tsx:120 | the clamped distance always lies in [500, 3500], equals the input inside the range, and is 500 below it and 3500 above it |
| OrbitControls.ClampMonotone | components/SceneContainer.tsx:94 | clamping preserves order |
| OrbitControls.OnGrant | components/SceneContainer.tsx:104-107 | grant copies the current angle and distance into the gesture baselines and changes nothing else |
| OrbitControls.OnRotate | components/SceneContainer.tsx:123-127 | a one-finger move resets the pinch baseline, leaves the distance alone and sets the angle to the gesture's start angle minus dx / 100 radians: equal for dx = 0, smaller for a drag to the right, larger for a drag to the left |
| OrbitControls.OnRelease | components/SceneContainer.tsx:129-131 | release only resets the pinch baseline |
| OrbitControls.OnWheel | components/SceneContainer.tsx:91-95 | the wheel keeps the distance in range, changes only the distance, zooms out for positive deltaY and in for negative, and a zero delta changes nothing |
| OrbitControls.RotateAndWheelRates | components/SceneContainer.tsx:91-127 | a 100-pixel drag turns the camera by exactly one radian, and a wheel step of 100 moves it by exactly 150 units before clamping |
| OrbitControls.RotateIsAbsolute | components/SceneContainer.tsx:126 | within one gesture the last one-finger move alone decides the angle |
| OrbitControls.GrantIdempotent | components/SceneContainer.tsx:104-107 | a second grant with nothing in between changes nothing |
| OrbitControls.DragThereAndBack | components/SceneContainer.tsx:104-131 | dragging by dx in one gesture and by -dx in the next restores the original angle |
| SceneContainer.OnPinch | components/SceneContainer.tsx:109-122 | the first two-finger frame only records the separation; later frames keep the baseline and put the distance in range, leaving the angles alone |
| SceneContainer.OnMove | components/SceneContainer.tsx:108-128 | two touches pinch, one touch rotates, any other count changes nothing |
| SceneContainer.Step | components/SceneContainer.tsx:91-131 | every event keeps an in-range distance in range, and a wheel event brings any distance into range |
| SceneContainer.RunKeepsDistanceInRange | components/SceneContainer.tsx:71 | from any in-range distance, such as the initial 2500, no sequence of gestures and wheel events leaves [500, 3500] |
| SceneContainer.PinchScaleInvariant | components/SceneContainer.tsx:118-120 | scaling the baseline and the current separation by the same factor gives the same distance |
| SceneContainer.PinchIgnoresCurrentDistance | components/SceneContainer.tsx:119 | a pinch frame depends on the grant-time distance, not on the distance earlier frames reached |
| SceneContainer.PinchDirection | components/SceneContainer.tsx:118-120 | spreading the fingers never zooms out and pinching them never zooms in, relative to the clamped grant-time distance |
| SceneContainer.RepinchScalesFromGrantDistance | components/SceneContainer.tsx:115-124 | lifting a finger and pinching again within one gesture records a new baseline without moving the camera, and the next frame scales the grant-time distance again |
| SceneContainer.LifecycleStep | components/SceneContainer.tsx:47-66 | with a builder the component follows the `useModel` lifecycle step for step; without one no event changes anything; the lifecycle invariant is preserved |
| SceneContainer.LifecycleRunWithBuilder | components/SceneContainer.tsx:47-66 | with a builder, any event sequence ends in the same state as the hook's |
| SceneContainer.NeverLoadingWithoutBuilder | components/SceneContainer.tsx:135 | without a builder the state never changes and the screen is never loading |
| SceneContainer.LoadingUntilTimerFires | components/SceneContainer.tsx:52-62 | after focus the screen is loading, once the timer fires it shows exactly the built model, and blur disposes that model and clears it |
| SceneContainer.OrbitRefs.constructor | components/SceneContainer.tsx:69-73 | the refs start at angle 0, distance 2500 and zero baselines |
| SceneContainer.OrbitRefs.OnPanResponderGrant | components/SceneContainer.tsx:104-107 | the fields become the grant step of their old values and the distance stays in range |
| SceneContainer.OrbitRefs.OnPanResponderMove | components/SceneContainer.tsx:108-128 | the fields become the move step of their old values and the distance stays in range |
| SceneContainer.OrbitRefs.OnPanResponderRelease | components/SceneContainer.tsx:129-131 | the fields become the release step of their old values |
| SceneContainer.OrbitRefs.HandleWheel | components/SceneContainer.tsx:91-95 | the fields become the wheel step of their old values and the distance stays in range |
| SceneContainer.ModelLifecycle.constructor | components/SceneContainer.tsx:44 | the component starts with no model, no timer and nothing disposed |
| SceneContainer.ModelLifecycle.Loading | components/SceneContainer.tsx:135 | loading exactly when a builder was given and no model is present |
| SceneContainer.ModelLifecycle.BuiltModelsDisposed | components/SceneContainer.tsx:59-63 | once unfocused, every geometry and material of every mesh of every model ever built has a dispose count above its value at mount |
| SceneContainer.ModelLifecycle.OnFocus | components/SceneContainer.tsx:47-56 | focus schedules the timer only when a builder was given |
| SceneContainer.ModelLifecycle.OnTimerFire | components/SceneContainer.tsx:52-56 | the timer stores the built model in the closure variable and the state |
| SceneContainer.ModelLifecycle.OnBlur | components/SceneContainer.tsx:59-63 | the cleanup clears the timer and the state, and each dispose count grows by exactly the disposals of the closure's model |
| SceneViewer.OnPinch | components/SceneViewer.tsx:67-74 | a two-finger frame adopts the separation as baseline when none is recorded, always puts the distance in range, and on the first frame sets it to the clamped grant-time distance |
| SceneViewer.OnMove | components/SceneViewer.tsx:66-79 | two touches pinch, one touch rotates, any other count changes nothing |
| SceneViewer.Step | components/SceneViewer.tsx:49-80 | every event keeps an in-range distance in range; wheel and pinch events bring any distance into range |
| SceneViewer.RunKeepsDistanceInRange | components/SceneViewer.tsx:28 | from an in-range distance no event sequence leaves [500, 3500] |
| SceneViewer.PinchScaleInvariant | components/SceneViewer.tsx:72-74 | scaling the baseline and the separation by the same factor gives the same distance |
| SceneViewer.PinchAgreesWithContainerAfterFirstFrame | components/SceneViewer.tsx:67-74 | once a baseline is recorded both components compute the same frame; on the first frame the container leaves the distance alone while the viewer sets it to the clamped grant-time distance |
| SceneViewer.RepinchFirstFrameDiffers | components/SceneViewer.tsx:72-76 | after a pinch and a one-finger move within one gesture, the next two-finger frame keeps the pinched distance in `SceneContainer` and snaps back to the grant-time distance in `SceneViewer`, so the two differ whenever the pinch moved the camera |
| SceneViewer.RepinchDiffersOnExample | components/SceneViewer.tsx:72-76 | from a grant at 2500, a pinch from separation 1 to 2 zooms both components to 1250; after a finger is lifted and put down, the container stays at 1250 and the viewer returns to 2500 |
| SceneViewer.OrbitRefs.constructor | components/SceneViewer.tsx:26-30 | the refs start at angle 0, distance 2500 and zero baselines |
| SceneViewer.OrbitRefs.OnPanResponderGrant | components/SceneViewer.tsx:62-65 | the fields become the grant step of their old values |
| SceneViewer.OrbitRefs.OnPanResponderMove | components/SceneViewer.tsx:66-79 | the fields become the viewer's move step of their old values and the distance stays in range |
| SceneViewer.OrbitRefs.OnPanResponderRelease | components/SceneViewer.tsx:80 | the fields become the release step of their old values |
| SceneViewer.OrbitRefs.HandleWheel | components/SceneViewer.tsx:49-52 | the fields become the wheel step of their old values |
| SceneGraph.Disposals | components/SceneContainer.tsx:15-23 | a mesh disposes its geometry first and then exactly its materials, in array order; any other node disposes nothing |
| SceneGraph.Traverse | components/SceneContainer.tsx:14 | traversal visits the node itself first |
| SceneGraph.TraverseVisitsTree | components/SceneContainer.tsx:14 | a node appears in the traversal exactly when it lies in the tree |
| SceneGraph.TraverseAllVisits | components/SceneContainer.tsx:14 | a node appears in the traversal of a child list exactly when it lies in one of the children's trees |
| SceneGraph.DisposalsOfSnoc | components/SceneContainer.tsx:14-24 | visiting one more node adds exactly that node's disposals, after the earlier ones |
| SceneGraph.DisposedAtSomeNode | components/SceneContainer.tsx:14-24 | every resource disposed during a visit sequence is disposed at some visited node |
| SceneGraph.VisitedNodeDisposes | components/SceneContainer.tsx:14-24 | every resource a visited node disposes is disposed during the visit sequence |
| SceneGraph.DisposedFromSomeMesh | components/SceneContainer.tsx:12-25 | every disposed resource belongs to some mesh of the tree |
| SceneGraph.MeshResourceIsDisposed | components/SceneContainer.tsx:12-25 | every geometry and material of every mesh of the tree is disposed |
| SceneGraph.MeshResourcesDisposed | components/SceneContainer.tsx:12-25 | a resource is disposed exactly when some mesh of the tree has it as geometry or material |
| SceneGraph.DisposeResource | components/SceneContainer.tsx:17 | one dispose call adds one to that resource's count and nothing else |
| SceneGraph.DisposeEach | components/SceneContainer.tsx:19 | disposing an array of materials adds to each count how often it occurs in the array |
| SceneGraph.DisposeNode | components/SceneContainer.tsx:15-23 | each count grows by how often the node disposes that resource |
| SceneGraph.DisposeModel | components/SceneContainer.tsx:12-25 | a null model changes nothing; otherwise each count grows by exactly how often the tree's meshes dispose that resource |
| UseModel.Step | hooks/use-model.ts:25-39 | focus, timer and blur keep the lifecycle invariant; only blur disposes, and only the closure's model; only a pending timer builds; after blur the state is null and no timer is pending |
| UseModel.RunKeepsValid | hooks/use-model.ts:25-39 | the lifecycle invariant holds after any event sequence |
| UseModel.NoModelOutlivesItsFocus | hooks/use-model.ts:33-37 | once unfocused, every model ever built has been disposed, once each and in build order; while focused at most one model is live (per run of the focus effect) |
| UseModel.NullUntilBuilt | hooks/use-model.ts:23-31 | the hook returns null after focus until the timer fires, then exactly the built model |
| UseModel.BlurBeforeTimer | hooks/use-model.ts:33-37 | blur before the timer fires builds nothing, disposes nothing and resets the state |
| UseModel.BlurAfterTimer | hooks/use-model.ts:28-37 | blur after the timer disposes exactly the model built in that focus |
| UseModel.AtMostOneBuildPerFocus | hooks/use-model.ts:28-31 | within one run of the focus effect the builder runs at most once (an effect run is one screen focus only while the builder keeps its identity) |
| UseModel.DisposedModelCounted | hooks/use-model.ts:35 | every resource of every disposed model is among all resources released so far |
| UseModel.AllDisposalsAppend | hooks/use-model.ts:35 | disposing one more model adds exactly its disposals to the total |
| UseModel.DisposeAndRecord | hooks/use-model.ts:7-20 | each count grows by the disposals of the given model, keeping the record of all disposals |
| UseModel.ModelHook.constructor | hooks/use-model.ts:23 | the hook starts with null state and nothing disposed |
| UseModel.ModelHook.BuiltModelsDisposed | hooks/use-model.ts:33-37 | once unfocused, every geometry and material of every mesh of every model ever built has a dispose count above its value at mount |
| UseModel.ModelHook.OnFocus | hooks/use-model.ts:26-31 | the fields become the focus step of their old values |
| UseModel.ModelHook.OnTimerFire | hooks/use-model.ts:28-31 | the fields become the timer step of their old values |
| UseModel.ModelHook.OnBlur | hooks/use-model.ts:33-37 | the fields become the blur step, and each count grows by exactly the disposals of the closure's model |
| LibraryBook.PageOffsets | components/3d/LibraryBook.ts:51-60 | 900 pages, page i at i page thicknesses from the back, strictly increasing and all inside the inner depth |
| LibraryBook.CreateBook | components/3d/LibraryBook.ts:5-70 | seven children; two 150 × 220 × 5 covers centred at z = ±47.5, so their inner faces are at ±45 and their outer faces are the book's faces, the triangles sit one unit in front of the front cover, the spine sits at the left edge level with the top of the covers, and the pages fill the space between the covers' inner faces: one 140 × 210 × 90 block at the origin, or 900 instances one page thickness apart, strictly increasing from the back cover's inner face |
| LibraryBook.TrianglesFormTriforce | components/3d/LibraryBook.ts:21-34 | the three triangles share corners as a triforce |
| Bookshelf.PlaceShelfBooks | components/3d/Bookshelf.ts:48-72 | one shelf's parts are the row of placements for its twelve slots |
| Bookshelf.CreateBookshelf | components/3d/Bookshelf.ts:7-98 | the group is frames, four shelves, three rows of books and, with the moved book, the book on top; 42 children either way |
| Bookshelf.PlacementSize | components/3d/Bookshelf.ts:52-71 | every slot but the removed one gets exactly one part |
| Bookshelf.ShelfRowSize | components/3d/Bookshelf.ts:51-72 | a row of n slots has n parts, one fewer once past the removed slot |
| Bookshelf.LayoutSize | components/3d/Bookshelf.ts:42-98 | 36 books on the shelves in the full variant, 35 in the moved-book variant, and 42 children in both |
| Bookshelf.ShelfRowAt | components/3d/Bookshelf.ts:51-72 | the j-th part of a row is the placement of the j-th occupied slot, in slot order |
| Bookshelf.SlotContents | components/3d/Bookshelf.ts:52-71 | each slot holds an upright book at its centre, except the removed slot (empty) and the leaning slot (a pivot) of the moved-book variant |
| Bookshelf.FramesMeetShelves | components/3d/Bookshelf.ts:16-35 | the frames are 1150 tall, stand on the floor and meet the ends of every shelf |
| Bookshelf.ShelvesStack | components/3d/Bookshelf.ts:31-35 | the bottom shelf is on the floor, the top shelf is flush with the frame top, and shelves are 350 apart |
| Bookshelf.BooksTileShelf | components/3d/Bookshelf.ts:57-58 | neighbouring books touch, and the row runs from frame to frame |
| Bookshelf.BooksStandOnShelves | components/3d/Bookshelf.ts:49-50 | each book stands on its shelf and clears the shelf above by 130 |
| Bookshelf.LeaningBookGeometry | components/3d/Bookshelf.ts:60-67 | the pivot is at the bottom edge shared with the empty slot, the unrotated book fills its own slot, and the lean is -atan(100/220) |
| Bookshelf.BookOnTopRests | components/3d/Bookshelf.ts:76-83 | the flat book rests on the top of the frame |
| Bookshelf.BookDimensionsAgree | components/3d/Bookshelf.ts:38 | the space the shelf gives each book is `createBook`'s book turned a quarter turn about y: its depth along x, its cover width along z |
| LoscamPallet.SumSnoc | components/3d/LoscamPallet.ts:38 | the running sum grows by each width in turn |
| LoscamPallet.PlanksOneGapApart | components/3d/LoscamPallet.ts:44-55 | consecutive planks are exactly one gap apart, for any widths |
| LoscamPallet.DeckSpansDepth | components/3d/LoscamPallet.ts:38-55 | the planks and gaps start at the back edge and end at the front edge, for any widths |
| LoscamPallet.TopPlankTotals | components/3d/LoscamPallet.ts:28-39 | the top planks are 790 wide in total and the gap is 62.5 |
| LoscamPallet.CreateTopDeck | components/3d/LoscamPallet.ts:38-55 | the running position yields exactly the top planks placed by widths and gaps |
| LoscamPallet.CreateBearers | components/3d/LoscamPallet.ts:58-72 | three bearers at -510, 0 and 510 |
| LoscamPallet.CreateBottomBoards | components/3d/LoscamPallet.ts:75-101 | five bottom boards at their positions, lead width first and last |
| LoscamPallet.CreatePallet | components/3d/LoscamPallet.ts:7-104 | fifteen children: the seven top planks at their running positions, the three bearers, the five bottom boards |
| LoscamPallet.TopDeckLayout | components/3d/LoscamPallet.ts:42-55 | the top deck runs edge to edge with 62.5 between planks, each plank across the full width |
| LoscamPallet.LayersStack | components/3d/LoscamPallet.ts:24-75 | top planks, bearers and bottom boards stack to exactly the pallet height |
| LoscamPallet.BearersFlush | components/3d/LoscamPallet.ts:57-72 | outer bearers flush with the sides, middle one centred, all the full depth |
| LoscamPallet.BottomBoardsSpaced | components/3d/LoscamPallet.ts:74-101 | bottom boards are ordered without overlap and the lead boards are flush with the edges |
| LoscamPallet.DecksAligned | components/3d/LoscamPallet.ts:28-101 | the back, middle and front top planks lie directly above the back, middle and front bottom boards |

## Left out

- `CameraController`'s per-frame camera placement (sine and cosine of the angle, fixed height 800): trigonometry on reals is not modelled; only the angle and distance refs are.
- The finger separation is an input of a two-finger move; `Math.hypot` of the touch coordinates is not modelled. A zero separation is excluded in every case. In `SceneViewer` and on later `SceneContainer` frames it makes the source divide by zero and produce `Infinity` or `NaN`. On the first `SceneContainer` frame it is harmless (the source only records 0), but it is excluded there too.
- Floating-point rounding: all arithmetic is on exact reals.
- `-Math.atan(...)` is kept as a symbolic angle; rotations by π/2 and π are described by how they orient a part (the book's thickness along x, the top book lying flat) rather than computed.
- The spine's extruded half-ellipse, `ShapeGeometry`, `PlaneGeometry`, `InstancedMesh` and `Object3D.updateMatrix` internals: a part keeps only its position, box or instance offsets.
- Materials and colours of the builders are not modelled, except that the pallet's pieces record wood or bearer finish.
- React plumbing: `useState`, `useRef`, `useCallback`, rendering, the loading spinner view and the overlay text. The state updates appear as the fields of the classes.
- Re-running the focus effect when the builder function changes identity is not modelled: the builder is fixed per instance. That holds for the pallet and platform scenes, which pass a stable function, but not for app/scenes/bookshelf.tsx:23, which passes a new arrow function on every render, so `useCallback` hands `useFocusEffect` a new callback after each `setModel` and the effect is cleaned up and run again while the scene stays focused (a rebuild on every render, not executed). In the model each such re-run is a `Blur` followed by a `Focus`, so `UseModel.AtMostOneBuildPerFocus` and `UseModel.NoModelOutlivesItsFocus` hold per effect run, not per screen focus.
- The 16 ms timer and the builder are outside the model: the timer firing is an event that carries the model the builder returned.
- Window event registration and removal for the wheel handler, the `Platform.OS` check, and `SceneViewer`'s screen-orientation lock.
- `SceneGraph.Traverse` models `Object3D.traverse` as pre-order over a tree that does not change while disposal runs; three.js itself is not part of this model.
- Bookshelf.CreateBookshelf: the source repeats the row loop in two branches, one for each variant; the model runs one row loop that checks the variant inside it, with the same result.
- UseModel.ModelHook.OnTimerFire: requires every resource of the built model to have a counter in the dispose-count array; the source has no such limit, and the bound only comes from counting disposals in a fixed-size array.
- SceneContainer.ModelLifecycle.OnTimerFire: the same counter bound as `UseModel.ModelHook.OnTimerFire`.
- BuiltModelsDisposed: stated for resources that have a counter (`id < disposeCount.Length`), for the same reason.
