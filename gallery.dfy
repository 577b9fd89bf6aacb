/** The photo gallery page (src/pages/Gallery.tsx): the row/column placement
    of photos in the 3D view and the choice between the flat grid and the 3D view. */
module Gallery {
  import opened Wrappers
  import opened DeviceDetection
  import opened Arith

  /** A photo's place in the 3D scene; the depth coordinate is left out. */
  datatype Position = Position(x: real, y: real)

  const Origin: Position := Position(0.0, 0.0)

  /** Horizontal distance between columns and vertical distance between rows. */
  const ColumnStep: real := 2.6
  const RowStep: real := 2.2

  /** Phones stack the photos in two rows, everything else in three. */
  function Rows(isMobile: bool): (rows: nat)
    ensures rows > 0
  {
    if isMobile then 2 else 3
  }

  /** `Math.ceil(n / rows)`: the fewest photos per row that fit `n` photos in
      `rows` rows. */
  function PerRow(n: nat, rows: nat): (p: nat)
    requires rows > 0
    ensures n <= rows * p
    ensures p > 0 ==> rows * (p - 1) < n
  {
    (n + rows - 1) / rows
  }

  /** The slot at row `r`, column `c`: x depends on the column only, y on the
      row only. */
  function SlotPosition(r: nat, c: nat, perRow: nat): Position
  {
    Position(c as real * ColumnStep - perRow as real, r as real * -RowStep + RowStep)
  }

  /** Photo `i` sits at row `i / perRow`, column `i % perRow`. */
  function PositionOf(i: nat, perRow: nat): Position
    requires perRow > 0
  {
    SlotPosition(i / perRow, i % perRow, perRow)
  }

  /** The layout of `n` photos, as the placement loop should produce it. */
  function Layout(n: nat, isMobile: bool): (ps: seq<Position>)
    ensures |ps| == n
  {
    var perRow := PerRow(n, Rows(isMobile));
    seq(n, i requires 0 <= i < n => PositionOf(i, perRow))
  }

  /** Row `r`, column `c` is photo number `r * p + c`, and back. */
  lemma SlotDivMod(r: nat, c: nat, p: nat)
    requires c < p
    ensures (r * p + c) / p == r && (r * p + c) % p == c
  {
    var i := r * p + c;
    var q, m := i / p, i % p;
    assert i == q * p + m;
    assert (r - q) * p == r * p - q * p;
    SmallMultiple(r - q, p);
  }

  /** The `positions` builder of `Gallery3D`: two nested loops sharing the
      counter `idx`, pushing one position per photo. */
  method BuildPositions(photos: seq<string>, isMobile: bool) returns (arr: seq<Position>)
    ensures arr == Layout(|photos|, isMobile)
  {
    var n := |photos|;
    arr := [];
    var rows := Rows(isMobile);
    var perRow := PerRow(n, rows);
    var idx := 0;
    var r := 0;
    while r < rows
      invariant 0 <= r <= rows
      invariant idx == Min(r * perRow, n)
      invariant |arr| == idx
      invariant forall k :: 0 <= k < idx ==> arr[k] == PositionOf(k, perRow)
    {
      var c := 0;
      while c < perRow && idx < n
        invariant 0 <= c <= perRow
        invariant idx == Min(r * perRow, n) + c && idx <= n
        invariant |arr| == idx
        invariant forall k :: 0 <= k < idx ==> arr[k] == PositionOf(k, perRow)
      {
        assert idx == r * perRow + c;
        SlotDivMod(r, c, perRow);
        arr := arr + [SlotPosition(r, c, perRow)];
        c, idx := c + 1, idx + 1;
      }
      assert (r + 1) * perRow == r * perRow + perRow;
      r := r + 1;
    }
  }

  /** `positions[i] || [0, 0, 0]`: the position photo `i` is drawn at. */
  function PlacedPosition(positions: seq<Position>, i: nat): (pos: Position)
    ensures i < |positions| ==> pos == positions[i]
    ensures |positions| <= i ==> pos == Origin
  {
    if i < |positions| then positions[i] else Origin
  }

  /** Every photo of the list gets its own computed position: the origin
      fallback never applies. */
  lemma NoOriginFallback(photos: seq<string>, isMobile: bool, i: nat)
    requires i < |photos|
    ensures PlacedPosition(Layout(|photos|, isMobile), i) == Layout(|photos|, isMobile)[i]
  {
  }

  /** Integer division by a positive number is monotone. */
  lemma DivMonotone(i: nat, j: nat, p: nat)
    requires i <= j && p > 0
    ensures i / p <= j / p
  {
    var qi, qj := i / p, j / p;
    assert qi * p <= i && j < qj * p + p;
    assert (qi - qj - 1) * p == qi * p - qj * p - p;
    NegativeMultiple(qi - qj - 1, p);
  }

  /** Two photos on the same row are ordered by their columns. */
  lemma SameRowColumnOrder(i: nat, j: nat, p: nat)
    requires i < j && p > 0 && i / p == j / p
    ensures i % p < j % p
  {
    var q := i / p;
    assert i == q * p + i % p;
    assert j == q * p + j % p;
  }

  /** Photos fill the rows in order: a later photo is never on a higher row,
      within a row it sits further right, and every photo lands on one of the
      `Rows` rows, in a column below `PerRow`. */
  lemma {:induction false} LayoutFillsRowsInOrder(n: nat, isMobile: bool, i: nat, j: nat)
    requires i <= j < n
    ensures var p := PerRow(n, Rows(isMobile));
            p > 0 && j / p < Rows(isMobile) && j % p < p
    ensures Layout(n, isMobile)[j].y <= Layout(n, isMobile)[i].y
    ensures var p := PerRow(n, Rows(isMobile));
            i < j && i / p == j / p ==> Layout(n, isMobile)[i].x < Layout(n, isMobile)[j].x
  {
    var rows, p := Rows(isMobile), PerRow(n, Rows(isMobile));
    assert p > 0;
    DivMonotone(i, j, p);
    if i < j && i / p == j / p {
      SameRowColumnOrder(i, j, p);
      assert Layout(n, isMobile)[i].x == (i % p) as real * ColumnStep - p as real;
      assert Layout(n, isMobile)[j].x == (j % p) as real * ColumnStep - p as real;
    }
    DivMonotone(j, rows * p - 1, p);
    SlotDivMod(rows - 1, p - 1, p);
    assert (rows - 1) * p + (p - 1) == rows * p - 1;
  }

  /** No two photos share a position. */
  lemma {:induction false} LayoutInjective(n: nat, isMobile: bool, i: nat, j: nat)
    requires i < n && j < n && i != j
    ensures Layout(n, isMobile)[i] != Layout(n, isMobile)[j]
  {
  }

  /** How one photo set is shown: the flat image grid or the 3D canvas. */
  datatype GalleryView = FlatGrid | Canvas3D

  /** The switch as the page writes it: only `isLowEnd` is consulted. */
  function GalleryViewAsWritten(d: DeviceInfo): (v: GalleryView)
    ensures v == FlatGrid <==> d.isLowEnd
  {
    if d.isLowEnd then FlatGrid else Canvas3D
  }

  /** A reading without WebGL that is not low-end: the selector disables 3D for
      it, yet the page as written still mounts the 3D canvas. */
  lemma AsWrittenMountsCanvasWithoutWebGL()
    ensures var env := Environment(1920, 1080, Some(1.0), Some(8), false);
            !GetPerformanceConfig(Measure(env)).enable3D
            && GalleryViewAsWritten(Measure(env)) == Canvas3D
  {
  }

  /** The switch the rest of the model uses: the flat grid for low-end devices
      and for every device the selector denies 3D. */
  function GalleryViewFor(d: DeviceInfo): (v: GalleryView)
    ensures v == Canvas3D ==> GetPerformanceConfig(d).enable3D && !d.isLowEnd
    ensures v == Canvas3D <==> GalleryViewAsWritten(d) == Canvas3D && d.supportsWebGL
  {
    if d.isLowEnd || !GetPerformanceConfig(d).enable3D then FlatGrid else Canvas3D
  }

  /** The page as written: the technical and non-technical photo sets are
      switched independently but by the same `isLowEnd` test, so they always
      agree, and a device that is not low-end gets both canvases. */
  function PageViews(d: DeviceInfo): (views: (GalleryView, GalleryView))
    ensures views.0 == views.1
    ensures views.0 == FlatGrid <==> d.isLowEnd
  {
    (GalleryViewAsWritten(d), GalleryViewAsWritten(d))
  }

  /** The page with the corrected switch: both photo sets still agree, no
      canvas is mounted without WebGL, and the page differs from the one as
      written only on devices without WebGL. */
  function CorrectedPageViews(d: DeviceInfo): (views: (GalleryView, GalleryView))
    ensures views.0 == views.1
    ensures views.0 == Canvas3D ==> d.supportsWebGL && GetPerformanceConfig(d).enable3D
    ensures d.supportsWebGL ==> views == PageViews(d)
    ensures !d.supportsWebGL ==> views == (FlatGrid, FlatGrid)
  {
    (GalleryViewFor(d), GalleryViewFor(d))
  }
}

