/** `createPallet`: a 1165 x 1165 x 150 block pallet centred on the origin,
    built from seven top-deck planks, three bearers and five bottom boards. */
module LoscamPallet {
  import opened Geometry

  const PalletWidth: real := 1165.0
  const PalletDepth: real := 1165.0
  const PalletHeight: real := 150.0
  const PlankThickness: real := 22.0
  const LeadBoardWidth: real := 145.0
  const StandardBoardWidth: real := 100.0
  const BearerHeight: real := 106.0
  const BearerWidth: real := 145.0

  /** The two materials of the pallet: light wood and the red bearers. */
  datatype Finish = Wood | RedBearer

  datatype Piece = Piece(box: Box, finish: Finish)

  const TopPlankWidths: seq<real> :=
    [LeadBoardWidth, StandardBoardWidth, StandardBoardWidth, StandardBoardWidth,
     StandardBoardWidth, StandardBoardWidth, LeadBoardWidth]

  /** Left-to-right sum, as `reduce((sum, width) => sum + width, 0)`. */
  function Sum(ws: seq<real>): real {
    if ws == [] then 0.0 else Sum(ws[..|ws| - 1]) + ws[|ws| - 1]
  }

  /** The equal gap that makes planks of widths `ws` span `depth`. */
  function Gap(ws: seq<real>, depth: real): real
    requires |ws| >= 2
  {
    (depth - Sum(ws)) / (|ws| - 1) as real
  }

  /** Where plank `k` starts: after the widths of the planks before it and one
      gap after each of them, counted from the back edge. */
  function PlankStart(ws: seq<real>, depth: real, k: nat): real
    requires |ws| >= 2 && k <= |ws|
  {
    -depth / 2.0 + Sum(ws[..k]) + k as real * Gap(ws, depth)
  }

  lemma SumSnoc(ws: seq<real>, k: nat)
    requires k < |ws|
    ensures Sum(ws[..k + 1]) == Sum(ws[..k]) + ws[k]
  {
    assert ws[..k + 1][..k] == ws[..k];
  }

  /** Consecutive planks are exactly one gap apart. */
  lemma PlanksOneGapApart(ws: seq<real>, depth: real, k: nat)
    requires |ws| >= 2 && k + 1 < |ws|
    ensures PlankStart(ws, depth, k + 1) - (PlankStart(ws, depth, k) + ws[k]) == Gap(ws, depth)
  {
    SumSnoc(ws, k);
  }

  /** The first plank starts at the back edge and the last one ends at the
      front edge: the planks and gaps span the depth exactly, whatever the
      widths. */
  lemma DeckSpansDepth(ws: seq<real>, depth: real)
    requires |ws| >= 2
    ensures PlankStart(ws, depth, 0) == -depth / 2.0
    ensures PlankStart(ws, depth, |ws| - 1) + ws[|ws| - 1] == depth / 2.0
  {
    var n := |ws|;
    assert ws[..0] == [];
    SumSnoc(ws, n - 1);
    assert ws[..n] == ws;
    var g := Gap(ws, depth);
    assert (n - 1) as real * g == depth - Sum(ws);
  }

  lemma TopPlankTotals()
    ensures Sum(TopPlankWidths) == 790.0
    ensures Gap(TopPlankWidths, PalletDepth) == 62.5
  {
    var w := TopPlankWidths;
    assert w[..0] == [];
    SumSnoc(w, 0);
    SumSnoc(w, 1);
    SumSnoc(w, 2);
    SumSnoc(w, 3);
    SumSnoc(w, 4);
    SumSnoc(w, 5);
    SumSnoc(w, 6);
    assert w[..7] == w;
  }

  const TopDeckY: real := PalletHeight / 2.0 - PlankThickness / 2.0

  function TopPlank(k: nat): Piece
    requires k < |TopPlankWidths|
  {
    var width := TopPlankWidths[k];
    Piece(Box(Vec3(0.0, TopDeckY, PlankStart(TopPlankWidths, PalletDepth, k) + width / 2.0),
              Vec3(PalletWidth, PlankThickness, width)), Wood)
  }

  const OuterX: real := PalletWidth / 2.0 - BearerWidth / 2.0
  const BearerXs: seq<real> := [-OuterX, 0.0, OuterX]

  function Bearer(k: nat): Piece
    requires k < |BearerXs|
  {
    Piece(Box(Vec3(BearerXs[k], 0.0, 0.0), Vec3(BearerWidth, BearerHeight, PalletDepth)), RedBearer)
  }

  const BottomBoardY: real := -(PalletHeight / 2.0) + PlankThickness / 2.0
  const BackPos: real := -(PalletDepth / 2.0) + LeadBoardWidth / 2.0
  const FrontPos: real := PalletDepth / 2.0 - LeadBoardWidth / 2.0
  const BottomBoardPositions: seq<real> := [BackPos, -150.0, 0.0, 150.0, FrontPos]

  function BottomBoard(k: nat): Piece
    requires k < |BottomBoardPositions|
  {
    var isLeadBoard := k == 0 || k == |BottomBoardPositions| - 1;
    var width := if isLeadBoard then LeadBoardWidth else StandardBoardWidth;
    Piece(Box(Vec3(0.0, BottomBoardY, BottomBoardPositions[k]), Vec3(PalletWidth, PlankThickness, width)), Wood)
  }

  /** Section 1 of `createPallet`: the widths are summed, the gap derived
      from them, and each plank placed at the running position `currentZ`,
      which then moves past the plank and one gap. */
  method CreateTopDeck() returns (planks: seq<Piece>)
    ensures |planks| == |TopPlankWidths|
    ensures forall k :: 0 <= k < |planks| ==> planks[k] == TopPlank(k)
  {
    planks := [];
    var totalTopPlankWidth := 0.0;
    for k := 0 to |TopPlankWidths|
      invariant totalTopPlankWidth == Sum(TopPlankWidths[..k])
    {
      SumSnoc(TopPlankWidths, k);
      totalTopPlankWidth := totalTopPlankWidth + TopPlankWidths[k];
    }
    assert TopPlankWidths[..|TopPlankWidths|] == TopPlankWidths;
    var topGapSize := (PalletDepth - totalTopPlankWidth) / (|TopPlankWidths| - 1) as real;
    var topDeckY := PalletHeight / 2.0 - PlankThickness / 2.0;

    var currentZ := -PalletDepth / 2.0;
    assert TopPlankWidths[..0] == [];
    for k := 0 to |TopPlankWidths|
      invariant |planks| == k
      invariant currentZ == PlankStart(TopPlankWidths, PalletDepth, k)
      invariant forall j :: 0 <= j < k ==> planks[j] == TopPlank(j)
    {
      var width := TopPlankWidths[k];
      var zPos := currentZ + width / 2.0;
      planks := planks + [Piece(Box(Vec3(0.0, topDeckY, zPos), Vec3(PalletWidth, PlankThickness, width)), Wood)];
      SumSnoc(TopPlankWidths, k);
      assert (k + 1) as real * topGapSize == k as real * topGapSize + topGapSize;
      currentZ := currentZ + width + topGapSize;
    }
  }

  /** Section 2: a bearer at each of the three positions. */
  method CreateBearers() returns (bearers: seq<Piece>)
    ensures |bearers| == |BearerXs|
    ensures forall k :: 0 <= k < |bearers| ==> bearers[k] == Bearer(k)
  {
    bearers := [];
    var outerX := PalletWidth / 2.0 - BearerWidth / 2.0;
    var bearerPositions := [Vec3(-outerX, 0.0, 0.0), Vec3(0.0, 0.0, 0.0), Vec3(outerX, 0.0, 0.0)];
    for k := 0 to |bearerPositions|
      invariant |bearers| == k
      invariant forall j :: 0 <= j < k ==> bearers[j] == Bearer(j)
    {
      bearers := bearers + [Piece(Box(bearerPositions[k], Vec3(BearerWidth, BearerHeight, PalletDepth)), RedBearer)];
    }
  }

  /** Section 3: a bottom board at each of the five positions, lead width
      for the first and the last. */
  method CreateBottomBoards() returns (boards: seq<Piece>)
    ensures |boards| == |BottomBoardPositions|
    ensures forall k :: 0 <= k < |boards| ==> boards[k] == BottomBoard(k)
  {
    boards := [];
    var bottomBoardY := -(PalletHeight / 2.0) + PlankThickness / 2.0;
    var backPos := -(PalletDepth / 2.0) + LeadBoardWidth / 2.0;
    var frontPos := PalletDepth / 2.0 - LeadBoardWidth / 2.0;
    var bottomBoardPositions := [backPos, -150.0, 0.0, 150.0, frontPos];
    for index := 0 to |bottomBoardPositions|
      invariant |boards| == index
      invariant forall j :: 0 <= j < index ==> boards[j] == BottomBoard(j)
    {
      var isLeadBoard := index == 0 || index == |bottomBoardPositions| - 1;
      var boardWidth := if isLeadBoard then LeadBoardWidth else StandardBoardWidth;
      boards := boards + [Piece(Box(Vec3(0.0, bottomBoardY, bottomBoardPositions[index]),
                                    Vec3(PalletWidth, PlankThickness, boardWidth)), Wood)];
    }
  }

  /** The group's children in the order they are added: planks back to
      front, bearers left to right, bottom boards back to front. */
  method CreatePallet() returns (pallet: seq<Piece>)
    ensures |pallet| == 15
    ensures forall k :: 0 <= k < 7 ==> pallet[k] == TopPlank(k)
    ensures forall k :: 0 <= k < 3 ==> pallet[7 + k] == Bearer(k)
    ensures forall k :: 0 <= k < 5 ==> pallet[10 + k] == BottomBoard(k)
  {
    var planks := CreateTopDeck();
    var bearers := CreateBearers();
    var boards := CreateBottomBoards();
    pallet := planks + bearers + boards;
  }

  /** The top planks run from the back edge to the front edge of the pallet
      with 62.5 between neighbours, each across the full width. */
  lemma TopDeckLayout(k: nat)
    requires k + 1 < |TopPlankWidths|
    ensures TopPlank(0).box.MinZ() == -PalletDepth / 2.0
    ensures TopPlank(6).box.MaxZ() == PalletDepth / 2.0
    ensures TopPlank(k + 1).box.MinZ() - TopPlank(k).box.MaxZ() == 62.5
    ensures TopPlank(k).box.MinX() == -PalletWidth / 2.0 && TopPlank(k).box.MaxX() == PalletWidth / 2.0
  {
    DeckSpansDepth(TopPlankWidths, PalletDepth);
    PlanksOneGapApart(TopPlankWidths, PalletDepth, k);
    TopPlankTotals();
  }

  /** The stack is exactly the pallet height: top planks flush with the top,
      bearers between the decks, bottom boards flush with the floor. */
  lemma LayersStack(i: nat, j: nat, k: nat)
    requires i < |TopPlankWidths| && j < |BearerXs| && k < |BottomBoardPositions|
    ensures BearerHeight == PalletHeight - 2.0 * PlankThickness
    ensures TopPlank(i).box.MaxY() == PalletHeight / 2.0
    ensures TopPlank(i).box.MinY() == Bearer(j).box.MaxY()
    ensures Bearer(j).box.MinY() == BottomBoard(k).box.MaxY()
    ensures BottomBoard(k).box.MinY() == -PalletHeight / 2.0
  {
  }

  /** The outer bearers are flush with the sides, the middle one centred,
      and every bearer runs the full depth. */
  lemma BearersFlush(j: nat)
    requires j < |BearerXs|
    ensures Bearer(0).box.MinX() == -PalletWidth / 2.0
    ensures Bearer(2).box.MaxX() == PalletWidth / 2.0
    ensures Bearer(1).box.center.x == 0.0
    ensures Bearer(j).box.MinZ() == -PalletDepth / 2.0 && Bearer(j).box.MaxZ() == PalletDepth / 2.0
  {
  }

  /** The bottom boards are ordered back to front without overlapping, and
      the lead boards are flush with the back and front edges. */
  lemma BottomBoardsSpaced(k: nat)
    requires k + 1 < |BottomBoardPositions|
    ensures BottomBoard(0).box.MinZ() == -PalletDepth / 2.0
    ensures BottomBoard(4).box.MaxZ() == PalletDepth / 2.0
    ensures BottomBoard(k).box.MaxZ() < BottomBoard(k + 1).box.MinZ()
  {
  }

  /** The back lead, middle and front lead planks of the top deck lie
      directly above the back lead, middle and front bottom boards. */
  lemma DecksAligned()
    ensures TopPlank(0).box.center.z == BottomBoard(0).box.center.z
    ensures TopPlank(3).box.center.z == BottomBoard(2).box.center.z
    ensures TopPlank(6).box.center.z == BottomBoard(4).box.center.z
    ensures TopPlank(0).box.size.z == BottomBoard(0).box.size.z
    ensures TopPlank(6).box.size.z == BottomBoard(4).box.size.z
  {
    TopPlankTotals();
    var w := TopPlankWidths;
    assert w[..0] == [];
    SumSnoc(w, 0);
    SumSnoc(w, 1);
    SumSnoc(w, 2);
    SumSnoc(w, 3);
    SumSnoc(w, 4);
    SumSnoc(w, 5);
  }
}
