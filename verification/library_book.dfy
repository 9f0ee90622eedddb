/** `createBook`: two covers, three gold triangles, a spine and the pages,
    either as one block or as one instance per page. */
module LibraryBook {
  import opened Geometry

  const BookWidth: real := 150.0
  const BookHeight: real := 220.0
  const BookDepth: real := 100.0
  const CoverDepth: real := 5.0
  const PageThickness: real := 0.1
  const AvailableInnerBookDepth: real := BookDepth - CoverDepth * 2.0
  const PageHeight: real := BookHeight - 10.0
  const PageWidth: real := BookWidth - 10.0
  /** `Math.floor(availableInnerBookDepth / pageThickness)`. */
  const NumPages: int := (AvailableInnerBookDepth / PageThickness).Floor
  const TriangleZ: real := BookDepth / 2.0 + 1.0

  /** Where the three triangles are put, in the order they are added. */
  const TrianglePositions: seq<Vec3> :=
    [Vec3(0.0, 0.0, TriangleZ), Vec3(20.0, 0.0, TriangleZ), Vec3(10.0, 20.0, TriangleZ)]

  datatype Pages =
    | PageBlock(block: Box)
    /** A `width` by `height` page plane per instance; `offsets` holds each
        instance's z position, as written into the instance matrices. */
    | PageInstances(width: real, height: real, offsets: seq<real>)

  /** A child of the book object. The spine's extruded half-ellipse is kept
      only as its position. */
  datatype BookPart =
    | Cover(box: Box)
    | Triangle(position: Vec3)
    | Spine(position: Vec3)
    | PageStack(pages: Pages)

  function CoverBox(z: real): Box {
    Box(Vec3(0.0, 0.0, z), Vec3(BookWidth, BookHeight, CoverDepth))
  }

  /** The corners of the triangle shape (-20, 0), (0, 0), (-10, 20), placed at `p`. */
  function TriangleCorners(p: Vec3): seq<Vec3> {
    [Vec3(p.x - 20.0, p.y, p.z), Vec3(p.x, p.y, p.z), Vec3(p.x - 10.0, p.y + 20.0, p.z)]
  }

  /** The non-optimized page loop: page `i` of the instance buffer is placed
      `i` page thicknesses behind the back of the inner space. */
  method PageOffsets() returns (offsets: seq<real>)
    ensures |offsets| == NumPages == 900
    ensures forall i :: 0 <= i < |offsets| ==>
              offsets[i] == i as real * PageThickness - AvailableInnerBookDepth / 2.0
    ensures forall i, j :: 0 <= i < j < |offsets| ==> offsets[i] < offsets[j]
    ensures forall i :: 0 <= i < |offsets| ==>
              -AvailableInnerBookDepth / 2.0 <= offsets[i] < AvailableInnerBookDepth / 2.0
  {
    assert AvailableInnerBookDepth / PageThickness == 900.0;
    var matrices := new real[NumPages];
    for i := 0 to NumPages
      invariant forall j :: 0 <= j < i ==>
                  matrices[j] == j as real * PageThickness - AvailableInnerBookDepth / 2.0
    {
      matrices[i] := i as real * PageThickness - AvailableInnerBookDepth / 2.0;
    }
    offsets := matrices[..];
  }

  method CreateBook(isOptimized: bool) returns (book: seq<BookPart>)
    ensures |book| == 7
    ensures book[6].PageStack?
    // a 150 by 220 by 5 front cover centred 47.5 in front, a back cover 47.5 behind
    ensures book[0] == Cover(CoverBox(BookDepth / 2.0 - CoverDepth / 2.0))
    ensures book[1] == Cover(CoverBox(-BookDepth / 2.0 + CoverDepth / 2.0))
    ensures book[0].box.center.z == 47.5 && book[1].box.center.z == -47.5
    ensures book[0].box.MinZ() == 45.0 && book[1].box.MaxZ() == -45.0
    // the spine is placed at the left edge, its base at the top of the covers
    ensures book[5] == Spine(Vec3(-book[0].box.size.x / 2.0, book[0].box.MaxY(), 0.0))
    ensures forall k :: 2 <= k < 5 ==> book[k] == Triangle(TrianglePositions[k - 2])
    // the covers' outer faces are the faces of the book
    ensures book[0].box.MaxZ() == BookDepth / 2.0 && book[1].box.MinZ() == -BookDepth / 2.0
    // the triangles sit one unit in front of the front cover
    ensures forall k :: 2 <= k < 5 ==> book[k].position.z == book[0].box.MaxZ() + 1.0
    // the page block fills the space between the covers' inner faces
    ensures isOptimized ==>
              var b := book[6].pages;
              b.PageBlock? && b.block.center == Vec3(0.0, 0.0, 0.0) &&
              b.block.MinZ() == book[1].box.MaxZ() && b.block.MaxZ() == book[0].box.MinZ() &&
              b.block.size.x == book[0].box.size.x - 10.0 && b.block.size.y == book[0].box.size.y - 10.0
    // that is, a 140 by 210 by 90 block
    ensures isOptimized ==> book[6].pages.block.size == Vec3(140.0, 210.0, 90.0)
    // or one page per tenth of a unit, all between the inner faces
    ensures !isOptimized ==>
              var p := book[6].pages;
              p.PageInstances? && |p.offsets| == 900 &&
              p.width == PageWidth && p.height == PageHeight &&
              (forall i :: 0 <= i < |p.offsets| ==> book[1].box.MaxZ() <= p.offsets[i] < book[0].box.MinZ()) &&
              (forall i :: 0 <= i < |p.offsets| ==> p.offsets[i] == book[1].box.MaxZ() + i as real * PageThickness) &&
              (forall i, j :: 0 <= i < j < |p.offsets| ==> p.offsets[i] < p.offsets[j])
  {
    var bookFrontCover := Cover(CoverBox(BookDepth * 0.5 - CoverDepth * 0.5));
    var bookBackCover := Cover(CoverBox(BookDepth * -0.5 + CoverDepth * 0.5));
    book := [bookFrontCover, bookBackCover];
    book := book + [Triangle(TrianglePositions[0]), Triangle(TrianglePositions[1]), Triangle(TrianglePositions[2])];
    book := book + [Spine(Vec3(BookWidth * -0.5, BookHeight * 0.5, 0.0))];
    if !isOptimized {
      var offsets := PageOffsets();
      book := book + [PageStack(PageInstances(PageWidth, PageHeight, offsets))];
    } else {
      var pageBlock := Box(Vec3(0.0, 0.0, 0.0), Vec3(PageWidth, PageHeight, AvailableInnerBookDepth));
      book := book + [PageStack(PageBlock(pageBlock))];
    }
  }

  /** The three triangles form a triforce: the first two share a base corner,
      and the third stands on the apexes of the first two. */
  lemma TrianglesFormTriforce()
    ensures TriangleCorners(TrianglePositions[0])[1] == TriangleCorners(TrianglePositions[1])[0]
    ensures TriangleCorners(TrianglePositions[2])[0] == TriangleCorners(TrianglePositions[0])[2]
    ensures TriangleCorners(TrianglePositions[2])[1] == TriangleCorners(TrianglePositions[1])[2]
  {
  }
}
