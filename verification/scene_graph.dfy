/** An abstract three.js scene tree and `disposeModel`, the helper both
    `SceneContainer` and `useModel` call to release a model's GPU buffers.
    The tree's shape never changes; what disposal changes is the dispose
    count of each geometry and material, kept in an array indexed by
    resource id. */
module SceneGraph {

  datatype Option<T> = None | Some(value: T)

  /** Identifies one geometry or material object; a mesh may share one with
      other meshes, as the bookshelf's boards share `shelfMaterial`. */
  type ResourceId = nat

  /** A mesh's `material`: absent, a single material or an array of them. */
  datatype Material = NoMaterial | Single(id: ResourceId) | Several(ids: seq<ResourceId>)

  /** A node of the scene tree. `Mesh` is every node whose `isMesh` flag is set;
      `Plain` is every other node (groups, pivots, line segments), with the
      GPU resources it may hold. */
  datatype Node =
    | Mesh(geometry: ResourceId, material: Material, children: seq<Node>)
    | Plain(held: seq<ResourceId>, children: seq<Node>)

  function MaterialIds(m: Material): seq<ResourceId> {
    match m
    case NoMaterial => []
    case Single(id) => [id]
    case Several(ids) => ids
  }

  /** The resources the traverse callback disposes at one node: for a mesh its
      geometry and then each of its materials, for any other node nothing. */
  function Disposals(n: Node): (r: seq<ResourceId>)
    ensures n.Plain? ==> r == []
    ensures n.Mesh? ==> |r| == 1 + |MaterialIds(n.material)| && r[0] == n.geometry
    ensures n.Mesh? ==> r[1..] == MaterialIds(n.material)
  {
    if n.Mesh? then [n.geometry] + MaterialIds(n.material) else []
  }

  /** `traverse`'s visiting order: the node itself, then each child's subtree
      in order. */
  function Traverse(n: Node): (r: seq<Node>)
    decreases n, 1
    ensures |r| >= 1 && r[0] == n
  {
    [n] + TraverseAll(n.children)
  }

  function TraverseAll(ns: seq<Node>): seq<Node>
    decreases ns, 0
  {
    if ns == [] then [] else Traverse(ns[0]) + TraverseAll(ns[1..])
  }

  /** `x` is `n` or lies in the subtree of one of `n`'s children: an
      independent description of the nodes of a tree. */
  ghost predicate InTree(x: Node, n: Node)
    decreases n
  {
    x == n || exists k :: 0 <= k < |n.children| && InTree(x, n.children[k])
  }

  lemma {:induction false} TraverseVisitsTree(x: Node, n: Node)
    decreases n, 1
    ensures x in Traverse(n) <==> InTree(x, n)
  {
    TraverseAllVisits(x, n.children);
  }

  lemma {:induction false} TraverseAllVisits(x: Node, ns: seq<Node>)
    decreases ns, 0
    ensures x in TraverseAll(ns) <==> exists k :: 0 <= k < |ns| && InTree(x, ns[k])
  {
    if ns != [] {
      TraverseVisitsTree(x, ns[0]);
      TraverseAllVisits(x, ns[1..]);
      if exists k :: 0 <= k < |ns| && InTree(x, ns[k]) {
        var k :| 0 <= k < |ns| && InTree(x, ns[k]);
        if k > 0 {
          assert ns[1..][k - 1] == ns[k];
        }
      }
      if exists k :: 0 <= k < |ns[1..]| && InTree(x, ns[1..][k]) {
        var k :| 0 <= k < |ns[1..]| && InTree(x, ns[1..][k]);
        assert ns[k + 1] == ns[1..][k];
      }
    }
  }

  /** The resources disposed while visiting `ns` in order. */
  function DisposalsOf(ns: seq<Node>): seq<ResourceId> {
    if ns == [] then [] else Disposals(ns[0]) + DisposalsOf(ns[1..])
  }

  /** Every resource `disposeModel(model)` disposes, once per `dispose()` call. */
  function ModelDisposals(model: Option<Node>): seq<ResourceId> {
    if model.None? then [] else DisposalsOf(Traverse(model.value))
  }

  /** Visiting one more node adds exactly that node's disposals. */
  lemma {:induction false} DisposalsOfSnoc(ns: seq<Node>, x: Node)
    ensures DisposalsOf(ns + [x]) == DisposalsOf(ns) + Disposals(x)
  {
    if ns == [] {
      assert [] + [x] == [x] && [x][1..] == [];
    } else {
      assert (ns + [x])[0] == ns[0] && (ns + [x])[1..] == ns[1..] + [x];
      DisposalsOfSnoc(ns[1..], x);
    }
  }

  lemma DisposalsOfPrefix(ns: seq<Node>, i: nat)
    requires i < |ns|
    ensures DisposalsOf(ns[..i + 1]) == DisposalsOf(ns[..i]) + Disposals(ns[i])
  {
    assert ns[..i + 1] == ns[..i] + [ns[i]];
    DisposalsOfSnoc(ns[..i], ns[i]);
  }

  /** Every resource disposed during a visit sequence is disposed at some
      visited node. */
  lemma {:induction false} DisposedAtSomeNode(ns: seq<Node>, id: ResourceId)
    requires id in DisposalsOf(ns)
    ensures exists k :: 0 <= k < |ns| && id in Disposals(ns[k])
  {
    if id !in Disposals(ns[0]) {
      DisposedAtSomeNode(ns[1..], id);
      var k :| 0 <= k < |ns[1..]| && id in Disposals(ns[1..][k]);
      assert ns[1..][k] == ns[k + 1];
    }
  }

  /** Every resource a visited node disposes is disposed during the visit
      sequence. */
  lemma {:induction false} VisitedNodeDisposes(ns: seq<Node>, k: nat, id: ResourceId)
    requires k < |ns| && id in Disposals(ns[k])
    ensures id in DisposalsOf(ns)
  {
    if k > 0 {
      assert ns[1..][k - 1] == ns[k];
      VisitedNodeDisposes(ns[1..], k - 1, id);
    }
  }

  /** `x` is a mesh with `id` as its geometry or among its materials. */
  predicate MeshHolds(x: Node, id: ResourceId) {
    x.Mesh? && (id == x.geometry || id in MaterialIds(x.material))
  }

  lemma DisposedFromSomeMesh(n: Node, id: ResourceId)
    requires id in ModelDisposals(Some(n))
    ensures exists x :: InTree(x, n) && MeshHolds(x, id)
  {
    var nodes := Traverse(n);
    DisposedAtSomeNode(nodes, id);
    var k :| 0 <= k < |nodes| && id in Disposals(nodes[k]);
    TraverseVisitsTree(nodes[k], n);
    assert MeshHolds(nodes[k], id);
  }

  lemma MeshResourceIsDisposed(n: Node, x: Node, id: ResourceId)
    requires InTree(x, n) && MeshHolds(x, id)
    ensures id in ModelDisposals(Some(n))
  {
    var nodes := Traverse(n);
    TraverseVisitsTree(x, n);
    var k :| 0 <= k < |nodes| && nodes[k] == x;
    VisitedNodeDisposes(nodes, k, id);
  }

  /** Disposal releases exactly the resources of the tree's meshes: a resource
      is disposed if and only if some mesh of the tree has it as its geometry
      or among its materials. Resources held only by non-mesh nodes are left
      alone. */
  lemma MeshResourcesDisposed(n: Node, id: ResourceId)
    ensures id in ModelDisposals(Some(n)) <==> exists x :: InTree(x, n) && MeshHolds(x, id)
  {
    if id in ModelDisposals(Some(n)) {
      DisposedFromSomeMesh(n, id);
    }
    if exists x :: InTree(x, n) && MeshHolds(x, id) {
      var x :| InTree(x, n) && MeshHolds(x, id);
      MeshResourceIsDisposed(n, x, id);
    }
  }

  /** Every resource the model would dispose has a counter. */
  predicate ResourcesBelow(model: Option<Node>, count: nat) {
    forall id <- ModelDisposals(model) :: id < count
  }

  /** One `dispose()` call on a geometry or material. */
  method DisposeResource(id: ResourceId, disposeCount: array<nat>)
    requires id < disposeCount.Length
    modifies disposeCount
    ensures forall r :: 0 <= r < disposeCount.Length ==>
              disposeCount[r] == old(disposeCount[r]) + multiset([id])[r]
  {
    disposeCount[id] := disposeCount[id] + 1;
  }

  /** `material.forEach(material => material.dispose())`. */
  method DisposeEach(ids: seq<ResourceId>, disposeCount: array<nat>)
    requires forall id <- ids :: id < disposeCount.Length
    modifies disposeCount
    ensures forall r :: 0 <= r < disposeCount.Length ==>
              disposeCount[r] == old(disposeCount[r]) + multiset(ids)[r]
  {
    for j := 0 to |ids|
      invariant forall r :: 0 <= r < disposeCount.Length ==>
                  disposeCount[r] == old(disposeCount[r]) + multiset(ids[..j])[r]
    {
      assert ids[..j + 1] == ids[..j] + [ids[j]];
      assert ids[j] in ids;
      DisposeResource(ids[j], disposeCount);
    }
    assert ids[..|ids|] == ids;
  }

  /** The traverse callback at one node. */
  method DisposeNode(n: Node, disposeCount: array<nat>)
    requires forall id <- Disposals(n) :: id < disposeCount.Length
    modifies disposeCount
    ensures forall r :: 0 <= r < disposeCount.Length ==>
              disposeCount[r] == old(disposeCount[r]) + multiset(Disposals(n))[r]
  {
    if n.Mesh? {
      assert n.geometry in Disposals(n);
      assert forall id <- MaterialIds(n.material) :: id in Disposals(n);
      assert multiset(Disposals(n)) == multiset([n.geometry]) + multiset(MaterialIds(n.material));
      DisposeResource(n.geometry, disposeCount);
      match n.material
      case Several(ids) =>
        DisposeEach(ids, disposeCount);
      case Single(id) =>
        assert id in MaterialIds(n.material);
        DisposeResource(id, disposeCount);
      case NoMaterial =>
    }
  }

  /** `disposeModel`: nothing for a null model; otherwise every node is
      visited in `traverse` order and each mesh's geometry and materials are
      disposed. */
  method DisposeModel(model: Option<Node>, disposeCount: array<nat>)
    requires ResourcesBelow(model, disposeCount.Length)
    modifies disposeCount
    ensures forall r :: 0 <= r < disposeCount.Length ==>
              disposeCount[r] == old(disposeCount[r]) + multiset(ModelDisposals(model))[r]
  {
    if model.None? {
      return;
    }
    var nodes := Traverse(model.value);
    assert ModelDisposals(model) == DisposalsOf(nodes);
    var i := 0;
    while i < |nodes|
      invariant 0 <= i <= |nodes|
      invariant forall r :: 0 <= r < disposeCount.Length ==>
                  disposeCount[r] == old(disposeCount[r]) + multiset(DisposalsOf(nodes[..i]))[r]
    {
      DisposalsBelow(nodes, i, disposeCount.Length);
      DisposalsOfPrefix(nodes, i);
      DisposeNode(nodes[i], disposeCount);
      i := i + 1;
    }
    assert nodes[..i] == nodes;
  }

  lemma DisposalsBelow(ns: seq<Node>, k: nat, count: nat)
    requires k < |ns|
    requires forall id <- DisposalsOf(ns) :: id < count
    ensures forall id <- Disposals(ns[k]) :: id < count
  {
    forall id | id in Disposals(ns[k]) ensures id < count {
      VisitedNodeDisposes(ns, k, id);
    }
  }
}
