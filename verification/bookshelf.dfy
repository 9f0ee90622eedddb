/** `createBookshelf`: two side frames, four shelves and twelve books on each
    of the lower three shelves; in the moved-book variant one slot is empty,
    its neighbour leans on a pivot, and the missing book lies on top. */
module Bookshelf {
  import opened Geometry
  import LibraryBook

  const ShelfThickness: real := 25.0
  const ShelfDepth: real := 315.0
  const ShelfGapHeight: real := 350.0
  const InnerShelfLength: real := 1200.0
  const TotalHeight: real := 4.0 * ShelfThickness + 3.0 * ShelfGapHeight
  const ShelfCount: nat := 4
  const BookHeight: real := 220.0
  const BookThickness: real := 100.0
  const BooksPerShelf: nat := 12
  const ShelvesWithBooks: nat := 3
  const RemovedBookShelf: nat := 2
  const RemovedBookIndex: nat := 4
  const LeaningBookIndex: nat := 3

  /** `-Math.atan(opposite / adjacent)`, kept symbolic. */
  datatype Angle = NegAtan(opposite: real, adjacent: real)

  /** A child of the bookshelf group. A `Book` is `createBook()` turned a
      quarter turn about y, so its thickness runs along x; a `LeaningBook` is
      a pivot object holding a book at `offset`, turned about z by `lean`;
      `BookOnTop` is the placement helper, turned `yaw` about y, holding a
      book laid flat. */
  datatype Part =
    | Board(box: Box)
    | Book(center: Vec3)
    | LeaningBook(pivot: Vec3, offset: Vec3, lean: Angle)
    | BookOnTop(helper: Vec3, yaw: real)

  const LeftFrame: Box :=
    Box(Vec3(-InnerShelfLength / 2.0 - ShelfThickness / 2.0, TotalHeight / 2.0, 0.0),
        Vec3(ShelfThickness, TotalHeight, ShelfDepth))
  const RightFrame: Box :=
    Box(Vec3(InnerShelfLength / 2.0 + ShelfThickness / 2.0, TotalHeight / 2.0, 0.0),
        Vec3(ShelfThickness, TotalHeight, ShelfDepth))

  function ShelfBox(i: int): Box {
    Box(Vec3(0.0, i as real * (ShelfGapHeight + ShelfThickness) + ShelfThickness / 2.0, 0.0),
        Vec3(InnerShelfLength, ShelfThickness, ShelfDepth))
  }

  function ShelfTopY(s: int): real {
    s as real * (ShelfGapHeight + ShelfThickness) + ShelfThickness
  }

  function BookCenterX(i: int): real {
    -InnerShelfLength / 2.0 + i as real * BookThickness + BookThickness / 2.0
  }

  function BookCenterY(s: int): real {
    ShelfTopY(s) + BookHeight / 2.0
  }

  /** The space an upright book takes on the shelf. */
  function BookBox(center: Vec3): Box {
    Box(center, Vec3(BookThickness, BookHeight, LibraryBook.BookWidth))
  }

  function SlotCenter(s: int, i: int): Vec3 {
    Vec3(BookCenterX(i), BookCenterY(s), 0.0)
  }

  /** What is added to the group for book slot `i` of shelf `s`. */
  function Placement(hasMovedBook: bool, s: int, i: int): seq<Part> {
    if hasMovedBook && s == RemovedBookShelf && i == RemovedBookIndex then []
    else if hasMovedBook && s == RemovedBookShelf && i == LeaningBookIndex then
      [LeaningBook(Vec3(BookCenterX(i) + BookThickness / 2.0, ShelfTopY(s), 0.0),
                   Vec3(-BookThickness / 2.0, BookHeight / 2.0, 0.0),
                   NegAtan(BookThickness, BookHeight))]
    else [Book(SlotCenter(s, i))]
  }

  /** The parts for the first `n` slots of shelf `s`. */
  function ShelfRow(hasMovedBook: bool, s: int, n: nat): seq<Part> {
    if n == 0 then [] else ShelfRow(hasMovedBook, s, n - 1) + Placement(hasMovedBook, s, n - 1)
  }

  /** The parts for the full rows of the first `n` shelves. */
  function Rows(hasMovedBook: bool, n: nat): seq<Part> {
    if n == 0 then [] else Rows(hasMovedBook, n - 1) + ShelfRow(hasMovedBook, n - 1, BooksPerShelf)
  }

  function Shelves(n: nat): seq<Part> {
    if n == 0 then [] else Shelves(n - 1) + [Board(ShelfBox(n - 1))]
  }

  const TopBook: Part := BookOnTop(Vec3(-150.0, TotalHeight + BookThickness / 2.0, -72.5), -0.2)

  /** The whole group in the order its children are added. */
  function Layout(hasMovedBook: bool): seq<Part> {
    [Board(LeftFrame), Board(RightFrame)] + Shelves(ShelfCount) + Rows(hasMovedBook, ShelvesWithBooks)
    + (if hasMovedBook then [TopBook] else [])
  }

  /** The inner loop of `createBookshelf`: the books of shelf `shelfIndex`,
      skipping the removed slot and leaning its neighbour when
      `hasMovedBook`. */
  method PlaceShelfBooks(hasMovedBook: bool, shelfIndex: nat) returns (row: seq<Part>)
    ensures row == ShelfRow(hasMovedBook, shelfIndex, BooksPerShelf)
  {
    row := [];
    var shelfTopY := shelfIndex as real * (ShelfGapHeight + ShelfThickness) + ShelfThickness;
    var bookCenterY := shelfTopY + BookHeight / 2.0;
    for bookIndex := 0 to BooksPerShelf
      invariant row == ShelfRow(hasMovedBook, shelfIndex, bookIndex)
    {
      if hasMovedBook && shelfIndex == RemovedBookShelf && bookIndex == RemovedBookIndex {
        continue;
      }
      var bookCenterX := -InnerShelfLength / 2.0 + bookIndex as real * BookThickness + BookThickness / 2.0;
      if hasMovedBook && shelfIndex == RemovedBookShelf && bookIndex == LeaningBookIndex {
        var pivot := Vec3(bookCenterX + BookThickness / 2.0, shelfTopY, 0.0);
        var offset := Vec3(-BookThickness / 2.0, BookHeight / 2.0, 0.0);
        row := row + [LeaningBook(pivot, offset, NegAtan(BookThickness, BookHeight))];
      } else {
        row := row + [Book(Vec3(bookCenterX, bookCenterY, 0.0))];
      }
    }
  }

  method CreateBookshelf(hasMovedBook: bool) returns (group: seq<Part>)
    ensures group == Layout(hasMovedBook)
    ensures |group| == 42
  {
    group := [Board(LeftFrame), Board(RightFrame)];
    for i := 0 to ShelfCount
      invariant group == [Board(LeftFrame), Board(RightFrame)] + Shelves(i)
    {
      var shelf := Box(Vec3(0.0, i as real * (ShelfGapHeight + ShelfThickness) + ShelfThickness / 2.0, 0.0),
                       Vec3(InnerShelfLength, ShelfThickness, ShelfDepth));
      group := group + [Board(shelf)];
    }
    ghost var boards := group;
    for shelfIndex := 0 to ShelvesWithBooks
      invariant group == boards + Rows(hasMovedBook, shelfIndex)
    {
      var row := PlaceShelfBooks(hasMovedBook, shelfIndex);
      group := group + row;
    }
    if hasMovedBook {
      var bookOnTopHeight := BookThickness;
      group := group + [BookOnTop(Vec3(-150.0, TotalHeight + bookOnTopHeight / 2.0, -72.5), -0.2)];
    }
    LayoutSize(hasMovedBook);
  }

  /** Every slot but the removed one gets exactly one part. */
  lemma PlacementSize(hasMovedBook: bool, s: int, i: int)
    ensures |Placement(hasMovedBook, s, i)| ==
            if hasMovedBook && s == RemovedBookShelf && i == RemovedBookIndex then 0 else 1
  {
  }

  lemma {:induction false} ShelfRowSize(hasMovedBook: bool, s: int, n: nat)
    ensures |ShelfRow(hasMovedBook, s, n)| ==
            n - (if hasMovedBook && s == RemovedBookShelf && n > RemovedBookIndex then 1 else 0)
  {
    if n > 0 {
      ShelfRowSize(hasMovedBook, s, n - 1);
      PlacementSize(hasMovedBook, s, n - 1);
    }
  }

  /** The full variant places 36 books, the moved-book variant 35 on the
      shelves (one leaning) and one on top; both groups have 42 children. */
  lemma LayoutSize(hasMovedBook: bool)
    ensures |Rows(hasMovedBook, ShelvesWithBooks)| == if hasMovedBook then 35 else 36
    ensures |Layout(hasMovedBook)| == 42
  {
    ShelfRowSize(hasMovedBook, 0, BooksPerShelf);
    ShelfRowSize(hasMovedBook, 1, BooksPerShelf);
    ShelfRowSize(hasMovedBook, 2, BooksPerShelf);
    assert Rows(hasMovedBook, 3) == Rows(hasMovedBook, 2) + ShelfRow(hasMovedBook, 2, BooksPerShelf);
    assert Rows(hasMovedBook, 2) == Rows(hasMovedBook, 1) + ShelfRow(hasMovedBook, 1, BooksPerShelf);
    assert Rows(hasMovedBook, 1) == Rows(hasMovedBook, 0) + ShelfRow(hasMovedBook, 0, BooksPerShelf);
    assert |Shelves(ShelfCount)| == 4;
  }

  /** The slot the `j`-th part of a shelf's row stands in: in order, skipping
      the removed slot. */
  function SlotOf(hasMovedBook: bool, s: int, j: nat): nat {
    if hasMovedBook && s == RemovedBookShelf && j >= RemovedBookIndex then j + 1 else j
  }

  /** The row of a shelf holds one part per occupied slot, in slot order. */
  lemma {:induction false} ShelfRowAt(hasMovedBook: bool, s: int, n: nat, j: nat)
    requires j < |ShelfRow(hasMovedBook, s, n)|
    ensures SlotOf(hasMovedBook, s, j) < n
    ensures ShelfRow(hasMovedBook, s, n)[j] == Placement(hasMovedBook, s, SlotOf(hasMovedBook, s, j))[0]
  {
    ShelfRowSize(hasMovedBook, s, n);
    var prev := ShelfRow(hasMovedBook, s, n - 1);
    ShelfRowSize(hasMovedBook, s, n - 1);
    PlacementSize(hasMovedBook, s, n - 1);
    if j < |prev| {
      ShelfRowAt(hasMovedBook, s, n - 1, j);
    }
  }

  /** In the full variant slot `i` of shelf `s` holds an upright book at the
      slot centre; in the moved-book variant the removed slot is empty, the
      leaning slot holds the pivot and every other slot the upright book. */
  lemma SlotContents(hasMovedBook: bool, s: nat, i: nat)
    requires s < ShelvesWithBooks && i < BooksPerShelf
    ensures !hasMovedBook ==> Placement(hasMovedBook, s, i) == [Book(SlotCenter(s, i))]
    ensures hasMovedBook && s == RemovedBookShelf && i == RemovedBookIndex ==> Placement(hasMovedBook, s, i) == []
    ensures hasMovedBook && s == RemovedBookShelf && i == LeaningBookIndex ==>
              Placement(hasMovedBook, s, i)[0].LeaningBook?
    ensures !(s == RemovedBookShelf && (i == RemovedBookIndex || i == LeaningBookIndex)) ==>
              Placement(hasMovedBook, s, i) == [Book(SlotCenter(s, i))]
  {
  }

  /** The side frames are as tall as the four shelves and three gaps, stand
      on the floor, and their inner faces meet the ends of every shelf. */
  lemma FramesMeetShelves(i: int)
    ensures TotalHeight == 1150.0
    ensures LeftFrame.MaxX() == ShelfBox(i).MinX() == -InnerShelfLength / 2.0
    ensures RightFrame.MinX() == ShelfBox(i).MaxX() == InnerShelfLength / 2.0
    ensures LeftFrame.MinY() == RightFrame.MinY() == 0.0
    ensures LeftFrame.MaxY() == RightFrame.MaxY() == TotalHeight
  {
  }

  /** The bottom shelf lies on the floor, the top shelf's top is the top of
      the frame, and consecutive shelves leave a gap of 350. */
  lemma ShelvesStack(i: int)
    ensures ShelfBox(0).MinY() == 0.0 && ShelfBox(ShelfCount - 1).MaxY() == TotalHeight
    ensures ShelfBox(i + 1).MinY() - ShelfBox(i).MaxY() == ShelfGapHeight
    ensures ShelfBox(i).MaxY() == ShelfTopY(i)
  {
  }

  /** The books of a shelf tile its interior: neighbours touch, the first
      touches the left frame and the last the right frame. */
  lemma BooksTileShelf(s: int, i: int)
    ensures BookBox(SlotCenter(s, i)).MaxX() == BookBox(SlotCenter(s, i + 1)).MinX()
    ensures BookBox(SlotCenter(s, 0)).MinX() == LeftFrame.MaxX()
    ensures BookBox(SlotCenter(s, BooksPerShelf - 1)).MaxX() == RightFrame.MinX()
  {
  }

  /** Each book stands on its shelf and clears the shelf above by 130. */
  lemma BooksStandOnShelves(s: int, i: int)
    ensures BookBox(SlotCenter(s, i)).MinY() == ShelfBox(s).MaxY()
    ensures BookBox(SlotCenter(s, i)).MaxY() + 130.0 == ShelfBox(s + 1).MinY()
  {
  }

  /** The leaning book hangs from a pivot at the bottom edge it shares with
      the empty slot; unrotated it fills its own slot exactly, and the pivot
      turns by -atan(thickness / height). */
  lemma LeaningBookGeometry()
    ensures var p := Placement(true, RemovedBookShelf, LeaningBookIndex)[0];
            && p.pivot.Plus(p.offset) == SlotCenter(RemovedBookShelf, LeaningBookIndex)
            && p.pivot.x == BookBox(SlotCenter(RemovedBookShelf, LeaningBookIndex)).MaxX()
            && p.pivot.x == BookBox(SlotCenter(RemovedBookShelf, RemovedBookIndex)).MinX()
            && p.pivot.y == ShelfBox(RemovedBookShelf).MaxY()
            && p.lean == NegAtan(BookThickness, BookHeight)
  {
  }

  /** The book on top lies flat, so its thickness is vertical and it rests on
      the top of the frame. */
  lemma BookOnTopRests()
    ensures TopBook.helper.y - BookThickness / 2.0 == TotalHeight
    ensures TopBook.helper.y == 1200.0
  {
  }

  /** The space the shelf gives each book is `createBook`'s book turned a
      quarter turn about y: the book's depth runs along x and its width
      (the covers' width) along z. */
  lemma BookDimensionsAgree(c: Vec3)
    ensures BookBox(c).size ==
            Vec3(LibraryBook.BookDepth, LibraryBook.CoverBox(0.0).size.y, LibraryBook.CoverBox(0.0).size.x)
  {
  }
}
