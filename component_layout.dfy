/** Placement of schematic symbols on a sheet: bounding boxes, sheet limits,
    grid snapping, the row-by-row search for a free slot, and the manager
    that records every placed box. Coordinates are millimetres, as `real`. */
module ComponentLayout {
  import opened Common

  datatype LayoutStrategy = Grid | Row | Column | Circular | Hierarchical

  /** A placed symbol's box, given by its centre and its size. */
  datatype ComponentBounds = ComponentBounds(reference: string, x: real, y: real, width: real, height: real)
  {
    function Left(): real { x - width / 2.0 }
    function Right(): real { x + width / 2.0 }
    function Top(): real { y - height / 2.0 }
    function Bottom(): real { y + height / 2.0 }

    /** Closed-interval overlap: boxes that merely touch overlap. */
    predicate OverlapsWith(other: ComponentBounds) {
      !(Right() < other.Left() || Left() > other.Right() || Bottom() < other.Top() || Top() > other.Bottom())
    }

    /** The closed box, as a set of points. */
    predicate ContainsPoint(px: real, py: real) {
      Left() <= px <= Right() && Top() <= py <= Bottom()
    }
  }

  /** Sheet size and the margin kept free along every edge. */
  datatype SchematicBounds = SchematicBounds(width: real, height: real, margin: real)
  {
    function UsableWidth(): real { width - 2.0 * margin }
    function UsableHeight(): real { height - 2.0 * margin }
    function MinX(): real { margin }
    function MaxX(): real { width - margin }
    function MinY(): real { margin }
    function MaxY(): real { height - margin }
  }

  /** The A4 default sheet. */
  const A4: SchematicBounds := SchematicBounds(297.0, 210.0, 20.0)

  const GridSpacing: real := 1.0
  const ComponentSpacing: real := 10.16

  /** Default symbol sizes (width, height) per component type. */
  const ComponentSizes: map<string, (real, real)> := map[
    "resistor" := (10.0, 5.0),
    "capacitor" := (8.0, 6.0),
    "inductor" := (12.0, 8.0),
    "led" := (6.0, 8.0),
    "diode" := (8.0, 6.0),
    "ic" := (20.0, 15.0),
    "transistor" := (10.0, 12.0),
    "switch" := (12.0, 8.0),
    "connector" := (15.0, 10.0),
    "power" := (5.0, 5.0),
    "default" := (10.0, 8.0)
  ]

  /** Size of a type; unknown types take the "default" size. */
  function SizeOf(componentType: string): (r: (real, real))
    ensures r.0 > 0.0 && r.1 > 0.0
    ensures componentType !in ComponentSizes ==> r == (10.0, 8.0)
  {
    if componentType in ComponentSizes then ComponentSizes[componentType] else ComponentSizes["default"]
  }

  function BoxAt(reference: string, p: Point, componentType: string): (r: ComponentBounds)
    ensures r.x == p.x && r.y == p.y && (r.width, r.height) == SizeOf(componentType)
  {
    ComponentBounds(reference, p.x, p.y, SizeOf(componentType).0, SizeOf(componentType).1)
  }

  lemma OverlapSymmetric(a: ComponentBounds, b: ComponentBounds)
    ensures a.OverlapsWith(b) <==> b.OverlapsWith(a)
  {
  }

  /** Two boxes of non-negative size overlap exactly when some point lies in both. */
  lemma OverlapIffCommonPoint(a: ComponentBounds, b: ComponentBounds)
    requires a.width >= 0.0 && a.height >= 0.0 && b.width >= 0.0 && b.height >= 0.0
    ensures a.OverlapsWith(b) <==> exists px: real, py: real :: a.ContainsPoint(px, py) && b.ContainsPoint(px, py)
  {
    if a.OverlapsWith(b) {
      var px := MaxReal(a.Left(), b.Left());
      var py := MaxReal(a.Top(), b.Top());
      assert a.ContainsPoint(px, py) && b.ContainsPoint(px, py);
    }
  }

  /** Two boxes whose centres are at least the sum of their half widths plus
      something apart never overlap; boxes that share an edge do. */
  lemma SeparatedBoxesDoNotOverlap(a: ComponentBounds, b: ComponentBounds)
    requires b.x - a.x > a.width / 2.0 + b.width / 2.0
    ensures !a.OverlapsWith(b) && !b.OverlapsWith(a)
  {
  }

  lemma TouchingBoxesOverlap(a: ComponentBounds, b: ComponentBounds)
    requires a.y == b.y && a.width >= 0.0 && b.width >= 0.0 && a.height >= 0.0 && b.height >= 0.0
    requires b.x - a.x == a.width / 2.0 + b.width / 2.0
    ensures a.OverlapsWith(b)
  {
  }

  lemma A4Limits()
    ensures A4.MinX() == 20.0 && A4.MaxX() == 277.0 && A4.MinY() == 20.0 && A4.MaxY() == 190.0
    ensures A4.UsableWidth() == A4.MaxX() - A4.MinX() && A4.UsableHeight() == A4.MaxY() - A4.MinY()
  {
  }

  /** `validate_position`: the type's box at (x, y) stays inside the inclusive sheet limits. */
  predicate ValidPosition(b: SchematicBounds, x: real, y: real, componentType: string) {
    var (w, h) := SizeOf(componentType);
    if x - w / 2.0 < b.MinX() then false
    else if x + w / 2.0 > b.MaxX() then false
    else if y - h / 2.0 < b.MinY() then false
    else !(y + h / 2.0 > b.MaxY())
  }

  /** Every point of the box lies within the sheet limits. */
  ghost predicate BoxWithinLimits(box: ComponentBounds, b: SchematicBounds) {
    forall px: real, py: real :: box.ContainsPoint(px, py) ==> b.MinX() <= px <= b.MaxX() && b.MinY() <= py <= b.MaxY()
  }

  /** A position is valid exactly when the whole box lies within the limits. */
  lemma ValidPositionIffBoxWithin(b: SchematicBounds, p: Point, reference: string, componentType: string)
    ensures ValidPosition(b, p.x, p.y, componentType) <==> BoxWithinLimits(BoxAt(reference, p, componentType), b)
  {
    var box := BoxAt(reference, p, componentType);
    if BoxWithinLimits(box, b) {
      assert box.ContainsPoint(box.Left(), box.Top());
      assert box.ContainsPoint(box.Right(), box.Bottom());
    }
  }

  /** A whole multiple of the 1 mm grid. */
  predicate OnGrid(v: real) {
    v.Floor as real == v
  }

  /** One coordinate snapped to the nearest grid line, `round(v / g) * g` for
      the grid spacing g = 1.0 (ties to even, as Python's round). */
  function SnapCoord(v: real): real {
    Round(v) as real
  }

  lemma SnapCoordIsNearest(v: real)
    ensures OnGrid(SnapCoord(v))
    ensures Abs(SnapCoord(v) - v) <= GridSpacing / 2.0
  {
    RoundIsNearest(v);
  }

  function Snap(p: Point): Point {
    Point(SnapCoord(p.x), SnapCoord(p.y))
  }

  lemma SnapIsOnGrid(p: Point)
    ensures OnGrid(Snap(p).x) && OnGrid(Snap(p).y)
    ensures Abs(Snap(p).x - p.x) <= GridSpacing / 2.0 && Abs(Snap(p).y - p.y) <= GridSpacing / 2.0
  {
    SnapCoordIsNearest(p.x);
    SnapCoordIsNearest(p.y);
  }

  /** A point on the grid is its own snap. */
  lemma SnapOnGrid(p: Point)
    requires OnGrid(p.x) && OnGrid(p.y)
    ensures Snap(p) == p
  {
    RoundIsNearest(p.x);
    RoundIsNearest(p.y);
  }

  lemma SnapIdempotent(p: Point)
    ensures Snap(Snap(p)) == Snap(p)
  {
    SnapIsOnGrid(p);
    SnapOnGrid(Snap(p));
  }

  /** Some placed box overlaps `candidate` (the source's `any` over the placed list). */
  predicate HasCollision(placed: seq<ComponentBounds>, candidate: ComponentBounds) {
    placed != [] && (candidate.OverlapsWith(placed[0]) || HasCollision(placed[1..], candidate))
  }

  lemma {:induction false} HasCollisionIffSomeOverlap(placed: seq<ComponentBounds>, candidate: ComponentBounds)
    ensures HasCollision(placed, candidate) <==> exists i :: 0 <= i < |placed| && candidate.OverlapsWith(placed[i])
  {
    if placed != [] {
      HasCollisionIffSomeOverlap(placed[1..], candidate);
      if exists i :: 0 <= i < |placed| && candidate.OverlapsWith(placed[i]) {
        var i :| 0 <= i < |placed| && candidate.OverlapsWith(placed[i]);
        if i > 0 {
          assert candidate.OverlapsWith(placed[1..][i - 1]);
        }
      }
      if HasCollision(placed[1..], candidate) {
        var i :| 0 <= i < |placed[1..]| && candidate.OverlapsWith(placed[1..][i]);
        assert candidate.OverlapsWith(placed[i + 1]);
      }
    }
  }

  /** A valid, collision-free position for the component. */
  predicate Fits(b: SchematicBounds, placed: seq<ComponentBounds>, reference: string, componentType: string, p: Point) {
    ValidPosition(b, p.x, p.y, componentType) && !HasCollision(placed, BoxAt(reference, p, componentType))
  }

  // ---------------------------------------------------------------------
  // The row-major grid search of `_find_next_grid_position`

  /** Centre x of the k-th column probed (exact arithmetic: Python accumulates floats). */
  function ColX(b: SchematicBounds, componentType: string, k: nat): real {
    b.MinX() + SizeOf(componentType).0 / 2.0 + k as real * ComponentSpacing
  }

  function RowY(b: SchematicBounds, componentType: string, i: nat): real {
    b.MinY() + SizeOf(componentType).1 / 2.0 + i as real * ComponentSpacing
  }

  predicate InCols(b: SchematicBounds, componentType: string, k: nat) {
    ColX(b, componentType, k) + SizeOf(componentType).0 / 2.0 <= b.MaxX()
  }

  predicate InRows(b: SchematicBounds, componentType: string, i: nat) {
    RowY(b, componentType, i) + SizeOf(componentType).1 / 2.0 <= b.MaxY()
  }

  /** The snapped point probed at row i, column k. */
  function Candidate(b: SchematicBounds, componentType: string, i: nat, k: nat): Point {
    Snap(Point(ColX(b, componentType, k), RowY(b, componentType, i)))
  }

  /** Which probes of the search are free and valid: (row, column) to verdict. */
  function Probes(b: SchematicBounds, placed: seq<ComponentBounds>, reference: string, componentType: string): (nat, nat) -> bool {
    (i: nat, k: nat) => Fits(b, placed, reference, componentType, Candidate(b, componentType, i, k))
  }

  /** How many columns the search probes: those whose box stays left of the right limit. */
  function NumCols(b: SchematicBounds, componentType: string): nat {
    var room := b.MaxX() - b.MinX() - SizeOf(componentType).0;
    if room < 0.0 then 0 else (room / ComponentSpacing).Floor + 1
  }

  function NumRows(b: SchematicBounds, componentType: string): nat {
    var room := b.MaxY() - b.MinY() - SizeOf(componentType).1;
    if room < 0.0 then 0 else (room / ComponentSpacing).Floor + 1
  }

  /** The inner loop's test holds for exactly the first NumCols columns. */
  lemma InColsIffBelow(b: SchematicBounds, componentType: string, k: nat)
    ensures InCols(b, componentType, k) <==> k < NumCols(b, componentType)
  {
    var room := b.MaxX() - b.MinX() - SizeOf(componentType).0;
    assert InCols(b, componentType, k) <==> k as real * ComponentSpacing <= room;
    assert k as real * ComponentSpacing <= room <==> k as real <= room / ComponentSpacing;
  }

  /** The outer loop's test holds for exactly the first NumRows rows. */
  lemma InRowsIffBelow(b: SchematicBounds, componentType: string, i: nat)
    ensures InRows(b, componentType, i) <==> i < NumRows(b, componentType)
  {
    var room := b.MaxY() - b.MinY() - SizeOf(componentType).1;
    assert InRows(b, componentType, i) <==> i as real * ComponentSpacing <= room;
    assert i as real * ComponentSpacing <= room <==> i as real <= room / ComponentSpacing;
  }

  /** First column from `j` on, of `cols`, whose probe in row `i` fits. */
  function ScanRow(fits: (nat, nat) -> bool, cols: nat, i: nat, j: nat): (r: Option<nat>)
    decreases cols - j
  {
    if j < cols then
      if fits(i, j) then Some(j) else ScanRow(fits, cols, i, j + 1)
    else None
  }

  /** First (row, column) from row `i` on, in row-major order, whose probe fits. */
  function ScanRows(fits: (nat, nat) -> bool, rows: nat, cols: nat, i: nat): (r: Option<(nat, nat)>)
    decreases rows - i
  {
    if i < rows then
      match ScanRow(fits, cols, i, 0)
      case Some(k) => Some((i, k))
      case None => ScanRows(fits, rows, cols, i + 1)
    else None
  }

  /** The row scan returns the first fitting column at or after `j`, or
      reports that no column in range fits. */
  lemma {:induction false} ScanRowIsFirstFit(fits: (nat, nat) -> bool, cols: nat, i: nat, j: nat)
    ensures var r := ScanRow(fits, cols, i, j);
      && (r.Some? ==> j <= r.value < cols && fits(i, r.value))
      && (r.Some? ==> forall k: nat :: j <= k < r.value ==> !fits(i, k))
      && (r.None? ==> forall k: nat :: j <= k < cols ==> !fits(i, k))
    decreases cols - j
  {
    if j < cols && !fits(i, j) {
      ScanRowIsFirstFit(fits, cols, i, j + 1);
    }
  }

  /** The sheet scan returns the first fitting (row, column) in row-major order
      from row `i` on, or reports that no probe in range fits. */
  lemma {:induction false} ScanRowsIsFirstFit(fits: (nat, nat) -> bool, rows: nat, cols: nat, i: nat)
    ensures var r := ScanRows(fits, rows, cols, i);
      && (r.Some? ==> i <= r.value.0 < rows && r.value.1 < cols && fits(r.value.0, r.value.1))
      && (r.Some? ==> forall i': nat, k: nat :: i <= i' < r.value.0 && k < cols ==> !fits(i', k))
      && (r.Some? ==> forall k: nat :: k < r.value.1 ==> !fits(r.value.0, k))
      && (r.None? ==> forall i': nat, k: nat :: i <= i' < rows && k < cols ==> !fits(i', k))
    decreases rows - i
  {
    if i < rows {
      ScanRowIsFirstFit(fits, cols, i, 0);
      if ScanRow(fits, cols, i, 0).None? {
        ScanRowsIsFirstFit(fits, rows, cols, i + 1);
      }
    }
  }

  /** The top-left point used when the search finds nothing. */
  function Fallback(b: SchematicBounds, componentType: string): (r: Point)
    ensures r == Candidate(b, componentType, 0, 0)
  {
    Snap(Point(b.MinX() + SizeOf(componentType).0 / 2.0, b.MinY() + SizeOf(componentType).1 / 2.0))
  }

  /** Result of `_find_next_grid_position`. */
  function NextGridPosition(b: SchematicBounds, placed: seq<ComponentBounds>, reference: string, componentType: string): Point {
    match ScanRows(Probes(b, placed, reference, componentType), NumRows(b, componentType), NumCols(b, componentType), 0)
    case Some((i, k)) => Candidate(b, componentType, i, k)
    case None => Fallback(b, componentType)
  }

  /** Result of `find_valid_position`: the snapped preferred point when both
      coordinates are given and it fits, else the grid search. */
  function FindValidPositionSpec(b: SchematicBounds, placed: seq<ComponentBounds>, reference: string, componentType: string,
                                 preferredX: Option<real>, preferredY: Option<real>): Point
  {
    if preferredX.Some? && preferredY.Some? && Fits(b, placed, reference, componentType, Snap(Point(preferredX.value, preferredY.value)))
    then Snap(Point(preferredX.value, preferredY.value))
    else NextGridPosition(b, placed, reference, componentType)
  }

  /** The position chosen is the snapped preferred point when that fits;
      otherwise it is the first fitting probe in row-major order, preceded by no
      fitting probe; otherwise (nothing fits) the top-left fallback. */
  lemma FindValidPositionIsFirstFit(b: SchematicBounds, placed: seq<ComponentBounds>, reference: string, componentType: string,
                                    px: Option<real>, py: Option<real>)
    ensures var r := FindValidPositionSpec(b, placed, reference, componentType, px, py);
      if px.Some? && py.Some? && Fits(b, placed, reference, componentType, Snap(Point(px.value, py.value)))
      then r == Snap(Point(px.value, py.value))
      else
        (exists i: nat, k: nat :: i < NumRows(b, componentType) && k < NumCols(b, componentType) && r == Candidate(b, componentType, i, k)
                               && Fits(b, placed, reference, componentType, r)
                               && (forall i': nat, k': nat :: (i' < i || (i' == i && k' < k)) && k' < NumCols(b, componentType) ==>
                                     !Fits(b, placed, reference, componentType, Candidate(b, componentType, i', k'))))
        || (r == Fallback(b, componentType)
            && forall i: nat, k: nat :: i < NumRows(b, componentType) && k < NumCols(b, componentType) ==> !Fits(b, placed, reference, componentType, Candidate(b, componentType, i, k)))
  {
    var r := FindValidPositionSpec(b, placed, reference, componentType, px, py);
    var fits := Probes(b, placed, reference, componentType);
    var rows, cols := NumRows(b, componentType), NumCols(b, componentType);
    ScanRowsIsFirstFit(fits, rows, cols, 0);
    if !(px.Some? && py.Some? && Fits(b, placed, reference, componentType, Snap(Point(px.value, py.value)))) {
      match ScanRows(fits, rows, cols, 0)
      case Some((i, k)) =>
        assert r == Candidate(b, componentType, i, k) && fits(i, k);
        forall i': nat, k': nat | (i' < i || (i' == i && k' < k)) && k' < cols
          ensures !Fits(b, placed, reference, componentType, Candidate(b, componentType, i', k'))
        {
          assert !fits(i', k');
        }
      case None =>
        forall i': nat, k': nat | i' < rows && k' < cols
          ensures !Fits(b, placed, reference, componentType, Candidate(b, componentType, i', k'))
        {
          assert !fits(i', k');
        }
    }
  }

  /** A component as handed to `auto_layout_components`: the dictionary keys
      the layout reads or writes. */
  datatype LayoutEntry = LayoutEntry(reference: string, componentType: Option<string>, position: Option<Point>)
  {
    function TypeName(): string {
      if componentType.Some? then componentType.value else "default"
    }
  }

  function PositionOf(e: LayoutEntry): Point {
    if e.position.Some? then e.position.value else Point(0.0, 0.0)
  }

  /** The boxes that placing `entries` at their positions records. */
  function BoxesOf(entries: seq<LayoutEntry>): (r: seq<ComponentBounds>)
    ensures |r| == |entries|
    ensures forall i :: 0 <= i < |entries| ==> r[i] == BoxAt(entries[i].reference, PositionOf(entries[i]), entries[i].TypeName())
  {
    if entries == [] then []
    else [BoxAt(entries[0].reference, PositionOf(entries[0]), entries[0].TypeName())] + BoxesOf(entries[1..])
  }

  /** Placing one more entry on top of `prior` records exactly its box. */
  lemma BoxesOfAppend(prior: seq<ComponentBounds>, entries: seq<LayoutEntry>, e: LayoutEntry)
    ensures prior + BoxesOf(entries + [e]) == (prior + BoxesOf(entries)) + [BoxAt(e.reference, PositionOf(e), e.TypeName())]
  {
    assert BoxesOf(entries + [e]) == BoxesOf(entries) + [BoxAt(e.reference, PositionOf(e), e.TypeName())];
  }

  /** Output entry i is input entry i with only its position replaced. */
  predicate Repositioned(input: seq<LayoutEntry>, output: seq<LayoutEntry>) {
    |input| == |output|
    && forall i :: 0 <= i < |input| ==> output[i].position.Some? && output[i] == input[i].(position := output[i].position)
  }

  /** `math.ceil(math.sqrt(n))`, the least g with g * g >= n. */
  function CeilSqrt(n: nat): (g: nat)
    ensures n > 0 ==> g > 0
  {
    CeilSqrtFrom(n, 0)
  }

  function CeilSqrtFrom(n: nat, g: nat): (r: nat)
    ensures n > 0 ==> r > 0
    ensures g <= r
    decreases n - g
  {
    if g * g >= n then g
    else
      SquareAtLeast(g);
      CeilSqrtFrom(n, g + 1)
  }

  lemma SquareAtLeast(g: nat)
    ensures g <= g * g || g == 0
  {
  }

  lemma {:induction false} CeilSqrtFromIsLeast(n: nat, g: nat)
    requires g == 0 || (g - 1) * (g - 1) < n
    ensures var r := CeilSqrtFrom(n, g);
      r * r >= n && (r == 0 || (r - 1) * (r - 1) < n)
    decreases n - g
  {
    if g * g < n {
      SquareAtLeast(g);
      assert ((g + 1) - 1) * ((g + 1) - 1) == g * g;
      CeilSqrtFromIsLeast(n, g + 1);
    }
  }

  /** CeilSqrt(n) is the integer ceiling of the square root of n. */
  lemma CeilSqrtIsCeiling(n: nat)
    ensures var g := CeilSqrt(n);
      g * g >= n && (g == 0 || (g - 1) * (g - 1) < n)
  {
    CeilSqrtFromIsLeast(n, 0);
  }

  /** `math.ceil(n / d)` for a positive divisor. */
  function CeilDiv(n: nat, d: nat): (r: nat)
    requires d > 0
    ensures n > 0 ==> r > 0
    decreases n
  {
    if n == 0 then 0 else if n <= d then 1 else 1 + CeilDiv(n - d, d)
  }

  lemma {:induction false} CeilDivIsCeiling(n: nat, d: nat)
    requires d > 0
    ensures (CeilDiv(n, d) - 1) * d < n <= CeilDiv(n, d) * d || n == 0
    decreases n
  {
    if n > d {
      CeilDivIsCeiling(n - d, d);
      assert CeilDiv(n, d) == 1 + CeilDiv(n - d, d);
      assert CeilDiv(n, d) * d == CeilDiv(n - d, d) * d + d;
      assert (CeilDiv(n, d) - 1) * d == (CeilDiv(n - d, d) - 1) * d + d;
    }
  }

  /** k * s by repeated addition, which keeps the solver's arithmetic linear. */
  function Times(k: nat, s: real): real {
    if k == 0 then 0.0 else Times(k - 1, s) + s
  }

  lemma {:induction false} TimesIsProduct(k: nat, s: real)
    ensures Times(k, s) == k as real * s
  {
    if k > 0 {
      TimesIsProduct(k - 1, s);
    }
  }

  /** Grid-strategy spacing along one axis for `cells` cells over `available` mm. */
  function GridSpacingFor(available: real, cells: nat): (r: real)
    ensures r >= ComponentSpacing
  {
    var raw := if cells > 1 then available / (cells - 1) as real else available / 2.0;
    MaxReal(raw, ComponentSpacing)
  }

  /** Columns and spacings of the grid strategy for its component count. */
  datatype GridShape = GridShape(cols: nat, colSpacing: real, rowSpacing: real)

  function GridShapeFor(b: SchematicBounds, n: nat): (shape: GridShape)
    requires n > 0
    ensures shape.cols > 0
  {
    var cols := CeilSqrt(n);
    var rows := CeilDiv(n, cols);
    GridShape(cols, GridSpacingFor(b.UsableWidth(), cols), GridSpacingFor(b.UsableHeight(), rows))
  }

  /** (i // cols, i % cols), by repeated subtraction. */
  function GridCell(i: nat, cols: nat): (nat, nat)
    requires cols > 0
    decreases i
  {
    if i < cols then (0, i)
    else
      var (row, col) := GridCell(i - cols, cols);
      (row + 1, col)
  }

  /** GridCell is Python's (i // cols, i % cols): i = row * cols + col with 0 <= col < cols. */
  lemma {:induction false} GridCellIsDivMod(i: nat, cols: nat)
    requires cols > 0
    ensures GridCell(i, cols).0 * cols + GridCell(i, cols).1 == i
    ensures GridCell(i, cols).1 < cols
    decreases i
  {
    if i >= cols {
      GridCellIsDivMod(i - cols, cols);
      var row := GridCell(i - cols, cols).0;
      assert (row + 1) * cols == row * cols + cols;
    }
  }

  /** Snapped point the grid strategy tries for component i. */
  function GridPoint(b: SchematicBounds, shape: GridShape, i: nat): Point
    requires shape.cols > 0
  {
    var (row, col) := GridCell(i, shape.cols);
    Snap(Point(b.MinX() + Times(col, shape.colSpacing), b.MinY() + Times(row, shape.rowSpacing)))
  }

  function RowSpacingFor(b: SchematicBounds, n: nat): (r: real)
    ensures r >= ComponentSpacing
  {
    MaxReal(if n > 1 then b.UsableWidth() / (n - 1) as real else 0.0, ComponentSpacing)
  }

  function MaxHeight(entries: seq<LayoutEntry>): real
    requires entries != []
  {
    if |entries| == 1 then SizeOf(entries[0].TypeName()).1
    else MaxReal(SizeOf(entries[0].TypeName()).1, MaxHeight(entries[1..]))
  }

  /** `max(get_component_size(c)[1] for c in components)`. */
  lemma {:induction false} MaxHeightIsMax(entries: seq<LayoutEntry>)
    requires entries != []
    ensures forall i :: 0 <= i < |entries| ==> SizeOf(entries[i].TypeName()).1 <= MaxHeight(entries)
    ensures exists i :: 0 <= i < |entries| && SizeOf(entries[i].TypeName()).1 == MaxHeight(entries)
  {
    if |entries| == 1 {
      assert SizeOf(entries[0].TypeName()).1 == MaxHeight(entries);
    } else {
      MaxHeightIsMax(entries[1..]);
      assert forall i :: 1 <= i < |entries| ==> entries[i] == entries[1..][i - 1];
      if MaxHeight(entries) == SizeOf(entries[0].TypeName()).1 {
        assert SizeOf(entries[0].TypeName()).1 == MaxHeight(entries);
      } else {
        var i :| 0 <= i < |entries[1..]| && SizeOf(entries[1..][i].TypeName()).1 == MaxHeight(entries[1..]);
        assert entries[i + 1] == entries[1..][i];
        assert SizeOf(entries[i + 1].TypeName()).1 == MaxHeight(entries);
      }
    }
  }

  function ColumnSpacingFor(b: SchematicBounds, entries: seq<LayoutEntry>): (r: real)
    requires entries != []
    ensures r >= ComponentSpacing && r >= MaxHeight(entries) + 5.0
  {
    var minSpacing := MaxReal(ComponentSpacing, MaxHeight(entries) + 5.0);
    if |entries| > 1 then MaxReal(b.UsableHeight() / (|entries| - 1) as real, minSpacing) else minSpacing
  }

  /** x shared by every component of the column strategy. */
  function ColumnX(b: SchematicBounds): real {
    SnapCoord(b.MinX() + b.UsableWidth() / 2.0)
  }

  // ---------------------------------------------------------------------
  // Hierarchical strategy: grouping by type, first appearance first

  function TypesInOrder(entries: seq<LayoutEntry>): (r: seq<string>)
    ensures forall i, j :: 0 <= i < j < |r| ==> r[i] != r[j]
    ensures forall e :: e in entries ==> e.TypeName() in r
    ensures forall t :: t in r ==> exists e :: e in entries && e.TypeName() == t
  {
    if entries == [] then []
    else
      var prev := TypesInOrder(entries[..|entries| - 1]);
      var last := entries[|entries| - 1];
      assert forall e :: e in entries ==> e in entries[..|entries| - 1] || e == last;
      if last.TypeName() in prev then prev else prev + [last.TypeName()]
  }

  function OfType(entries: seq<LayoutEntry>, t: string): (r: seq<LayoutEntry>)
    ensures forall e :: e in r ==> e in entries && e.TypeName() == t
  {
    if entries == [] then []
    else (if entries[0].TypeName() == t then [entries[0]] else []) + OfType(entries[1..], t)
  }

  function ConcatGroups(entries: seq<LayoutEntry>, types: seq<string>): seq<LayoutEntry> {
    if types == [] then [] else OfType(entries, types[0]) + ConcatGroups(entries, types[1..])
  }

  /** The order in which the hierarchical strategy emits components. */
  function GroupedByType(entries: seq<LayoutEntry>): seq<LayoutEntry> {
    ConcatGroups(entries, TypesInOrder(entries))
  }

  function Unplaced(entries: seq<LayoutEntry>): (r: seq<LayoutEntry>)
    ensures |r| == |entries|
    ensures forall i :: 0 <= i < |r| ==> r[i] == entries[i].(position := None)
  {
    if entries == [] then [] else [entries[0].(position := None)] + Unplaced(entries[1..])
  }

  lemma {:induction false} OfTypeOthers(entries: seq<LayoutEntry>, e: LayoutEntry, t: string)
    requires e.TypeName() != t
    ensures OfType(entries + [e], t) == OfType(entries, t)
  {
    if entries == [] {
      assert OfType([e], t) == [] + OfType([], t);
    } else {
      assert (entries + [e])[1..] == entries[1..] + [e];
      OfTypeOthers(entries[1..], e, t);
    }
  }

  lemma {:induction false} OfTypeSame(entries: seq<LayoutEntry>, e: LayoutEntry)
    ensures OfType(entries + [e], e.TypeName()) == OfType(entries, e.TypeName()) + [e]
  {
    if entries == [] {
      assert OfType([e], e.TypeName()) == [e] + OfType([], e.TypeName());
    } else {
      assert (entries + [e])[1..] == entries[1..] + [e];
      OfTypeSame(entries[1..], e);
    }
  }

  lemma {:induction false} OfTypeAbsent(entries: seq<LayoutEntry>, t: string)
    requires forall e :: e in entries ==> e.TypeName() != t
    ensures OfType(entries, t) == []
  {
    if entries != [] {
      OfTypeAbsent(entries[1..], t);
    }
  }

  /** Adding one entry to the input adds it to the multiset of the grouped output. */
  lemma {:induction false} ConcatGroupsSnoc(entries: seq<LayoutEntry>, e: LayoutEntry, types: seq<string>)
    requires forall i, j :: 0 <= i < j < |types| ==> types[i] != types[j]
    ensures multiset(ConcatGroups(entries + [e], types))
            == multiset(ConcatGroups(entries, types)) + (if e.TypeName() in types then multiset{e} else multiset{})
  {
    if types != [] {
      ConcatGroupsSnoc(entries, e, types[1..]);
      if types[0] == e.TypeName() {
        OfTypeSame(entries, e);
        assert e.TypeName() !in types[1..];
      } else {
        OfTypeOthers(entries, e, types[0]);
      }
    }
  }

  lemma {:induction false} ConcatGroupsNewType(entries: seq<LayoutEntry>, types: seq<string>, t: string)
    requires forall e :: e in entries ==> e.TypeName() != t
    ensures ConcatGroups(entries, types + [t]) == ConcatGroups(entries, types)
  {
    if types == [] {
      OfTypeAbsent(entries, t);
      assert ConcatGroups(entries, [t]) == OfType(entries, t) + ConcatGroups(entries, []);
    } else {
      assert (types + [t])[1..] == types[1..] + [t];
      ConcatGroupsNewType(entries, types[1..], t);
    }
  }

  /** The hierarchical order is a permutation of the input. */
  lemma {:induction false} GroupedByTypeIsPermutation(entries: seq<LayoutEntry>)
    ensures multiset(GroupedByType(entries)) == multiset(entries)
  {
    if entries != [] {
      var init := entries[..|entries| - 1];
      var last := entries[|entries| - 1];
      assert entries == init + [last];
      GroupedByTypeIsPermutation(init);
      var prev := TypesInOrder(init);
      if last.TypeName() in prev {
        ConcatGroupsSnoc(init, last, prev);
      } else {
        ConcatGroupsSnoc(init, last, prev + [last.TypeName()]);
        ConcatGroupsNewType(init, prev, last.TypeName());
      }
    }
  }

  /** The summary `get_layout_statistics` returns (its average spacing is not modelled). */
  datatype LayoutStatistics = LayoutStatistics(totalComponents: nat, areaUtilization: real, boundsViolations: nat)

  predicate OutOfLimits(box: ComponentBounds, b: SchematicBounds) {
    box.Left() < b.MinX() || box.Right() > b.MaxX() || box.Top() < b.MinY() || box.Bottom() > b.MaxY()
  }

  function CountViolations(placed: seq<ComponentBounds>, b: SchematicBounds): (n: nat)
    ensures n <= |placed|
  {
    if placed == [] then 0 else (if OutOfLimits(placed[0], b) then 1 else 0) + CountViolations(placed[1..], b)
  }

  function TotalArea(placed: seq<ComponentBounds>): real {
    if placed == [] then 0.0 else placed[0].width * placed[0].height + TotalArea(placed[1..])
  }

  /** A box of the type's size is out of limits exactly when its position is invalid. */
  lemma OutOfLimitsIffInvalid(b: SchematicBounds, reference: string, p: Point, componentType: string)
    ensures OutOfLimits(BoxAt(reference, p, componentType), b) <==> !ValidPosition(b, p.x, p.y, componentType)
  {
  }

  /** Every box placed by the search at a position it found valid is within limits. */
  lemma {:induction false} NoViolationsWhenAllWithin(placed: seq<ComponentBounds>, b: SchematicBounds)
    requires forall i :: 0 <= i < |placed| ==> !OutOfLimits(placed[i], b)
    ensures CountViolations(placed, b) == 0
  {
    if placed != [] {
      NoViolationsWhenAllWithin(placed[1..], b);
    }
  }

  /** Position the grid strategy gives component k of n: its grid point is
      offered when that point is valid, otherwise it is auto-placed. */
  function GridChoice(b: SchematicBounds, before: seq<ComponentBounds>, c: LayoutEntry, shape: GridShape, k: nat): Point
    requires shape.cols > 0
  {
    var preferred := GridPoint(b, shape, k);
    var valid := ValidPosition(b, preferred.x, preferred.y, c.TypeName());
    FindValidPositionSpec(b, before, c.reference, c.TypeName(),
                          if valid then Some(preferred.x) else None, if valid then Some(preferred.y) else None)
  }

  /** The grid strategy's output for `cs`, components `from`.. of n, placed
      one after another on top of the layout `before`. */
  function GridEntries(b: SchematicBounds, before: seq<ComponentBounds>, cs: seq<LayoutEntry>, shape: GridShape, from: nat): seq<LayoutEntry>
    requires shape.cols > 0
    decreases |cs|
  {
    if cs == [] then []
    else
      var p := GridChoice(b, before, cs[0], shape, from);
      [cs[0].(position := Some(p))] + GridEntries(b, before + [BoxAt(cs[0].reference, p, cs[0].TypeName())], cs[1..], shape, from + 1)
  }

  lemma GridEntriesStep(b: SchematicBounds, before: seq<ComponentBounds>, cs: seq<LayoutEntry>, shape: GridShape, from: nat, p: Point)
    requires shape.cols > 0 && cs != [] && p == GridChoice(b, before, cs[0], shape, from)
    ensures GridEntries(b, before, cs, shape, from)
            == [cs[0].(position := Some(p))] + GridEntries(b, before + [BoxAt(cs[0].reference, p, cs[0].TypeName())], cs[1..], shape, from + 1)
  {
  }

  /** The row strategy starts at the vertical centre of the usable area. */
  function RowStartY(b: SchematicBounds): real {
    b.MinY() + b.UsableHeight() / 2.0
  }

  /** Snapped point the row strategy offers component k, given the y carried over. */
  function RowPoint(b: SchematicBounds, spacing: real, k: nat, y: real): Point {
    Snap(Point(b.MinX() + Times(k, spacing), y))
  }

  /** The row strategy's output: each component is offered the next x along
      the row and the y at which the previous component ended up. */
  function RowEntries(b: SchematicBounds, before: seq<ComponentBounds>, cs: seq<LayoutEntry>, spacing: real, from: nat, y: real): seq<LayoutEntry>
    decreases |cs|
  {
    if cs == [] then []
    else
      var q := RowPoint(b, spacing, from, y);
      var p := FindValidPositionSpec(b, before, cs[0].reference, cs[0].TypeName(), Some(q.x), Some(q.y));
      [cs[0].(position := Some(p))] + RowEntries(b, before + [BoxAt(cs[0].reference, p, cs[0].TypeName())], cs[1..], spacing, from + 1, p.y)
  }

  lemma RowEntriesStep(b: SchematicBounds, before: seq<ComponentBounds>, cs: seq<LayoutEntry>, spacing: real, from: nat, y: real, p: Point)
    requires cs != []
    requires p == FindValidPositionSpec(b, before, cs[0].reference, cs[0].TypeName(), Some(RowPoint(b, spacing, from, y).x), Some(RowPoint(b, spacing, from, y).y))
    ensures RowEntries(b, before, cs, spacing, from, y)
            == [cs[0].(position := Some(p))] + RowEntries(b, before + [BoxAt(cs[0].reference, p, cs[0].TypeName())], cs[1..], spacing, from + 1, p.y)
  {
  }

  function ColumnY(b: SchematicBounds, spacing: real, k: nat): real {
    b.MinY() + Times(k, spacing)
  }

  /** The column strategy's output: the shared x and the snapped k-th y. */
  function ColumnEntries(b: SchematicBounds, spacing: real, cs: seq<LayoutEntry>, from: nat): seq<LayoutEntry>
    decreases |cs|
  {
    if cs == [] then []
    else [cs[0].(position := Some(Point(ColumnX(b), SnapCoord(ColumnY(b, spacing, from)))))] + ColumnEntries(b, spacing, cs[1..], from + 1)
  }

  /** One zone of the hierarchical strategy: a fresh 5 mm-margin manager
      auto-places the group, and positions are shifted to the zone's corner. */
  function ZoneEntries(zone: SchematicBounds, before: seq<ComponentBounds>, group: seq<LayoutEntry>, t: string, origin: Point): seq<LayoutEntry>
    decreases |group|
  {
    if group == [] then []
    else
      var p := FindValidPositionSpec(zone, before, group[0].reference, t, None, None);
      [group[0].(position := Some(Point(origin.x + p.x, origin.y + p.y)))]
        + ZoneEntries(zone, before + [BoxAt(group[0].reference, p, t)], group[1..], t, origin)
  }

  /** Zone grid of the hierarchical strategy for `numGroups` > 0 groups. */
  datatype ZoneGrid = ZoneGrid(cols: nat, width: real, height: real)

  function ZoneGridFor(b: SchematicBounds, numGroups: nat): (z: ZoneGrid)
    requires numGroups > 0
    ensures z.cols > 0
  {
    var cols := CeilSqrt(numGroups);
    var rows := CeilDiv(numGroups, cols);
    ZoneGrid(cols, b.UsableWidth() / cols as real, b.UsableHeight() / rows as real)
  }

  function ZoneOrigin(b: SchematicBounds, z: ZoneGrid, g: nat): Point
    requires z.cols > 0
  {
    var (row, col) := GridCell(g, z.cols);
    Point(b.MinX() + Times(col, z.width), b.MinY() + Times(row, z.height))
  }

  /** Hierarchical output from group g on. */
  function HierarchicalFrom(b: SchematicBounds, cs: seq<LayoutEntry>, types: seq<string>, z: ZoneGrid, g: nat): seq<LayoutEntry>
    requires z.cols > 0
    decreases |types| - g
  {
    if g >= |types| then []
    else ZoneEntries(SchematicBounds(z.width, z.height, 5.0), [], OfType(cs, types[g]), types[g], ZoneOrigin(b, z, g))
         + HierarchicalFrom(b, cs, types, z, g + 1)
  }

  function HierarchicalLayout(b: SchematicBounds, cs: seq<LayoutEntry>): seq<LayoutEntry> {
    var types := TypesInOrder(cs);
    if types == [] then [] else HierarchicalFrom(b, cs, types, ZoneGridFor(b, |types|), 0)
  }

  lemma {:induction false} GridEntriesRepositioned(b: SchematicBounds, before: seq<ComponentBounds>, cs: seq<LayoutEntry>, shape: GridShape, from: nat)
    requires shape.cols > 0
    ensures Repositioned(cs, GridEntries(b, before, cs, shape, from))
    decreases |cs|
  {
    if cs != [] {
      var p := GridChoice(b, before, cs[0], shape, from);
      GridEntriesRepositioned(b, before + [BoxAt(cs[0].reference, p, cs[0].TypeName())], cs[1..], shape, from + 1);
    }
  }

  lemma {:induction false} RowEntriesRepositioned(b: SchematicBounds, before: seq<ComponentBounds>, cs: seq<LayoutEntry>, spacing: real, from: nat, y: real)
    ensures Repositioned(cs, RowEntries(b, before, cs, spacing, from, y))
    decreases |cs|
  {
    if cs != [] {
      var q := RowPoint(b, spacing, from, y);
      var p := FindValidPositionSpec(b, before, cs[0].reference, cs[0].TypeName(), Some(q.x), Some(q.y));
      RowEntriesRepositioned(b, before + [BoxAt(cs[0].reference, p, cs[0].TypeName())], cs[1..], spacing, from + 1, p.y);
    }
  }

  /** Every entry of the column strategy sits at the one column x, the k-th
      at the snapped k-th row y. */
  lemma {:induction false} ColumnEntriesShape(b: SchematicBounds, spacing: real, cs: seq<LayoutEntry>, from: nat)
    ensures var r := ColumnEntries(b, spacing, cs, from);
      Repositioned(cs, r) && forall k :: 0 <= k < |r| ==> r[k].position == Some(Point(ColumnX(b), SnapCoord(ColumnY(b, spacing, from + k))))
    decreases |cs|
  {
    if cs != [] {
      ColumnEntriesShape(b, spacing, cs[1..], from + 1);
      var r := ColumnEntries(b, spacing, cs, from);
      assert forall k :: 1 <= k < |r| ==> r[k] == ColumnEntries(b, spacing, cs[1..], from + 1)[k - 1];
    }
  }

  lemma UnplacedOfRepositioned(input: seq<LayoutEntry>, output: seq<LayoutEntry>)
    requires Repositioned(input, output)
    ensures Unplaced(output) == Unplaced(input)
  {
  }

  lemma UnplacedAppend(a: seq<LayoutEntry>, b: seq<LayoutEntry>)
    ensures Unplaced(a + b) == Unplaced(a) + Unplaced(b)
  {
    assert Unplaced(a + b) == Unplaced(a) + Unplaced(b);
  }

  /** Every entry of `entries` carries a position. */
  predicate AllPlaced(entries: seq<LayoutEntry>) {
    forall k :: 0 <= k < |entries| ==> entries[k].position.Some?
  }

  lemma AllPlacedAppend(a: seq<LayoutEntry>, b: seq<LayoutEntry>)
    requires AllPlaced(a) && AllPlaced(b)
    ensures AllPlaced(a + b)
  {
    assert forall k :: |a| <= k < |a + b| ==> (a + b)[k] == b[k - |a|];
  }

  lemma {:induction false} ZoneEntriesShape(zone: SchematicBounds, before: seq<ComponentBounds>, group: seq<LayoutEntry>, t: string, origin: Point)
    ensures var r := ZoneEntries(zone, before, group, t, origin);
      Unplaced(r) == Unplaced(group) && AllPlaced(r)
    decreases |group|
  {
    if group != [] {
      var p := FindValidPositionSpec(zone, before, group[0].reference, t, None, None);
      var rest := ZoneEntries(zone, before + [BoxAt(group[0].reference, p, t)], group[1..], t, origin);
      ZoneEntriesShape(zone, before + [BoxAt(group[0].reference, p, t)], group[1..], t, origin);
      var e := group[0].(position := Some(Point(origin.x + p.x, origin.y + p.y)));
      UnplacedAppend([e], rest);
      UnplacedAppend([group[0]], group[1..]);
      assert [group[0]] + group[1..] == group;
      AllPlacedAppend([e], rest);
    }
  }

  lemma {:induction false} HierarchicalFromRegroups(b: SchematicBounds, cs: seq<LayoutEntry>, types: seq<string>, z: ZoneGrid, g: nat)
    requires z.cols > 0 && g <= |types|
    ensures var r := HierarchicalFrom(b, cs, types, z, g);
      Unplaced(r) == Unplaced(ConcatGroups(cs, types[g..])) && AllPlaced(r)
    decreases |types| - g
  {
    if g < |types| {
      HierarchicalFromRegroups(b, cs, types, z, g + 1);
      var group := OfType(cs, types[g]);
      var zoneOut := ZoneEntries(SchematicBounds(z.width, z.height, 5.0), [], group, types[g], ZoneOrigin(b, z, g));
      var rest := HierarchicalFrom(b, cs, types, z, g + 1);
      ZoneEntriesShape(SchematicBounds(z.width, z.height, 5.0), [], group, types[g], ZoneOrigin(b, z, g));
      UnplacedAppend(zoneOut, rest);
      AllPlacedAppend(zoneOut, rest);
      assert types[g..][1..] == types[g + 1..];
      UnplacedAppend(group, ConcatGroups(cs, types[g + 1..]));
    } else {
      assert types[g..] == [];
    }
  }

  /** `output` is `input` in grouped-by-type order, each entry given a position. */
  predicate Regrouped(input: seq<LayoutEntry>, output: seq<LayoutEntry>) {
    |output| == |input| && Unplaced(output) == Unplaced(GroupedByType(input)) && AllPlaced(output)
  }

  /** The hierarchical strategy positions every component once, in the
      grouped-by-type order, which is a permutation of its input. */
  lemma HierarchicalLayoutRegroups(b: SchematicBounds, cs: seq<LayoutEntry>)
    ensures Regrouped(cs, HierarchicalLayout(b, cs))
  {
    var types := TypesInOrder(cs);
    GroupedByTypeIsPermutation(cs);
    if types != [] {
      HierarchicalFromRegroups(b, cs, types, ZoneGridFor(b, |types|), 0);
      assert types[0..] == types;
    }
    assert |multiset(GroupedByType(cs))| == |multiset(cs)|;
  }

  lemma AppendAssoc(a: seq<LayoutEntry>, e: LayoutEntry, rest: seq<LayoutEntry>)
    ensures (a + [e]) + rest == a + ([e] + rest)
  {
  }


  /** `ComponentLayoutManager`: the sheet and the list of boxes placed so far. */
  class LayoutManager {
    const bounds: SchematicBounds
    const gridSpacing: real := GridSpacing
    const componentSpacing: real := ComponentSpacing
    var placed: seq<ComponentBounds>

    /** Without explicit bounds the manager uses the A4 sheet. */
    constructor (sheet: Option<SchematicBounds>)
      ensures bounds == (if sheet.Some? then sheet.value else A4)
      ensures gridSpacing == GridSpacing && componentSpacing == ComponentSpacing
      ensures placed == []
    {
      bounds := if sheet.Some? then sheet.value else A4;
      placed := [];
    }

    /** `_find_next_grid_position`: nested row/column probing. */
    method FindNextGridPosition(reference: string, componentType: string) returns (p: Point)
      ensures p == NextGridPosition(bounds, placed, reference, componentType)
    {
      var (w, h) := SizeOf(componentType);
      var startX := bounds.MinX() + w / 2.0;
      var startY := bounds.MinY() + h / 2.0;
      var currentY := startY;
      ghost var fits := Probes(bounds, placed, reference, componentType);
      ghost var rows, cols := NumRows(bounds, componentType), NumCols(bounds, componentType);
      ghost var i: nat := 0;
      while currentY + h / 2.0 <= bounds.MaxY()
        invariant currentY == RowY(bounds, componentType, i)
        invariant ScanRows(fits, rows, cols, i) == ScanRows(fits, rows, cols, 0)
        invariant i <= rows
        decreases rows - i
      {
        InRowsIffBelow(bounds, componentType, i);
        var currentX := startX;
        ghost var j: nat := 0;
        while currentX + w / 2.0 <= bounds.MaxX()
          invariant currentX == ColX(bounds, componentType, j)
          invariant ScanRow(fits, cols, i, j) == ScanRow(fits, cols, i, 0)
          invariant j <= cols
          decreases cols - j
        {
          InColsIffBelow(bounds, componentType, j);
          var q := Snap(Point(currentX, currentY));
          if ValidPosition(bounds, q.x, q.y, componentType) && !HasCollision(placed, BoxAt(reference, q, componentType)) {
            assert q == Candidate(bounds, componentType, i, j) && fits(i, j);
            return q;
          }
          currentX := currentX + componentSpacing;
          j := j + 1;
        }
        InColsIffBelow(bounds, componentType, j);
        currentY := currentY + componentSpacing;
        i := i + 1;
      }
      InRowsIffBelow(bounds, componentType, i);
      p := Snap(Point(bounds.MinX() + w / 2.0, bounds.MinY() + h / 2.0));
    }

    method FindValidPosition(reference: string, componentType: string, preferredX: Option<real>, preferredY: Option<real>) returns (p: Point)
      ensures p == FindValidPositionSpec(bounds, placed, reference, componentType, preferredX, preferredY)
    {
      if preferredX.Some? && preferredY.Some? {
        var q := Snap(Point(preferredX.value, preferredY.value));
        if ValidPosition(bounds, q.x, q.y, componentType) && !HasCollision(placed, BoxAt(reference, q, componentType)) {
          return q;
        }
      }
      p := FindNextGridPosition(reference, componentType);
    }

    /** Place one component: choose its position and record exactly one box there. */
    method PlaceComponent(reference: string, componentType: string, x: Option<real>, y: Option<real>) returns (p: Point)
      modifies this
      ensures p == FindValidPositionSpec(bounds, old(placed), reference, componentType, x, y)
      ensures placed == old(placed) + [BoxAt(reference, p, componentType)]
    {
      p := FindValidPosition(reference, componentType, x, y);
      placed := placed + [BoxAt(reference, p, componentType)];
    }

    method ClearLayout()
      modifies this
      ensures placed == []
    {
      placed := [];
    }

    /** `get_layout_statistics`, with all-zero figures for an empty layout. */
    function Statistics(): (s: LayoutStatistics)
      reads this
      ensures s.totalComponents == |placed|
      ensures s.boundsViolations <= s.totalComponents
      ensures placed == [] ==> s == LayoutStatistics(0, 0.0, 0)
    {
      if placed == [] then LayoutStatistics(0, 0.0, 0)
      else
        var area := bounds.UsableWidth() * bounds.UsableHeight();
        LayoutStatistics(|placed|, if area > 0.0 then TotalArea(placed) / area else 0.0, CountViolations(placed, bounds))
    }

    /** `_layout_grid`. An empty list fails: the source divides by ceil(sqrt(0)) = 0. */
    method LayoutGrid(components: seq<LayoutEntry>) returns (r: Option<seq<LayoutEntry>>)
      modifies this
      ensures r.None? <==> components == []
      ensures r.None? ==> placed == old(placed)
      ensures r.Some? ==> r.value == GridEntries(bounds, old(placed), components, GridShapeFor(bounds, |components|), 0)
      ensures r.Some? ==> placed == old(placed) + BoxesOf(r.value)
    {
      if components == [] {
        return None;
      }
      var n := |components|;
      var shape := GridShapeFor(bounds, n);
      var out: seq<LayoutEntry> := [];
      var i := 0;
      while i < n
        invariant 0 <= i <= n
        invariant placed == old(placed) + BoxesOf(out)
        invariant out + GridEntries(bounds, placed, components[i..], shape, i) == GridEntries(bounds, old(placed), components, shape, 0)
      {
        var c := components[i];
        var q := GridPoint(bounds, shape, i);
        ghost var before := placed;
        // An invalid grid point falls back to automatic placement.
        var valid := ValidPosition(bounds, q.x, q.y, c.TypeName());
        var p := PlaceComponent(c.reference, c.TypeName(), if valid then Some(q.x) else None, if valid then Some(q.y) else None);
        var e := c.(position := Some(p));
        GridEntriesStep(bounds, before, components[i..], shape, i, p);
        assert components[i..][1..] == components[i + 1..];
        BoxesOfAppend(old(placed), out, e);
        AppendAssoc(out, e, GridEntries(bounds, placed, components[i + 1..], shape, i + 1));
        out := out + [e];
        i := i + 1;
      }
      r := Some(out);
    }

    /** `_layout_row`: one row; each component is offered the y at which the previous one ended up. */
    method LayoutRow(components: seq<LayoutEntry>) returns (out: seq<LayoutEntry>)
      modifies this
      ensures out == RowEntries(bounds, old(placed), components, RowSpacingFor(bounds, |components|), 0, RowStartY(bounds))
      ensures placed == old(placed) + BoxesOf(out)
    {
      var n := |components|;
      var spacing := RowSpacingFor(bounds, n);
      var y := RowStartY(bounds);
      out := [];
      var i := 0;
      while i < n
        invariant 0 <= i <= n
        invariant placed == old(placed) + BoxesOf(out)
        invariant out + RowEntries(bounds, placed, components[i..], spacing, i, y)
                  == RowEntries(bounds, old(placed), components, spacing, 0, RowStartY(bounds))
      {
        var c := components[i];
        var q := RowPoint(bounds, spacing, i, y);
        ghost var before := placed;
        var p := PlaceComponent(c.reference, c.TypeName(), Some(q.x), Some(q.y));
        var e := c.(position := Some(p));
        assert components[i..][1..] == components[i + 1..];
        RowEntriesStep(bounds, before, components[i..], spacing, i, y, p);
        BoxesOfAppend(old(placed), out, e);
        AppendAssoc(out, e, RowEntries(bounds, placed, components[i + 1..], spacing, i + 1, p.y));
        out := out + [e];
        y := p.y;
        i := i + 1;
      }
    }

    /** `_layout_column`: clears the layout, then stacks every component at one
        snapped x without collision checks. An empty list fails (the maximum of
        no heights), after the layout was cleared. */
    method LayoutColumn(components: seq<LayoutEntry>) returns (r: Option<seq<LayoutEntry>>)
      modifies this
      ensures r.None? <==> components == []
      ensures r.None? ==> placed == []
      ensures r.Some? ==> r.value == ColumnEntries(bounds, ColumnSpacingFor(bounds, components), components, 0)
      ensures r.Some? ==> placed == BoxesOf(r.value)
    {
      ClearLayout();
      if components == [] {
        return None;
      }
      var spacing := ColumnSpacingFor(bounds, components);
      var columnX := SnapCoord(bounds.MinX() + bounds.UsableWidth() / 2.0);
      var out: seq<LayoutEntry> := [];
      var boxes: seq<ComponentBounds> := [];
      var i := 0;
      while i < |components|
        invariant 0 <= i <= |components|
        invariant boxes == BoxesOf(out)
        invariant out + ColumnEntries(bounds, spacing, components[i..], i) == ColumnEntries(bounds, spacing, components, 0)
      {
        var c := components[i];
        var p := Point(columnX, SnapCoord(ColumnY(bounds, spacing, i)));
        var e := c.(position := Some(p));
        assert components[i..][1..] == components[i + 1..];
        BoxesOfAppend([], out, e);
        AppendAssoc(out, e, ColumnEntries(bounds, spacing, components[i + 1..], i + 1));
        boxes := boxes + [BoxAt(c.reference, p, c.TypeName())];
        out := out + [e];
        i := i + 1;
      }
      placed := boxes;
      r := Some(out);
    }

    /** The inner loop of `_layout_hierarchical`: auto-place every member of
        one group in this (zone) manager, reporting positions shifted by `origin`. */
    method PlaceGroup(group: seq<LayoutEntry>, t: string, origin: Point) returns (out: seq<LayoutEntry>)
      modifies this
      ensures out == ZoneEntries(bounds, old(placed), group, t, origin)
    {
      out := [];
      var k := 0;
      while k < |group|
        invariant 0 <= k <= |group|
        invariant out + ZoneEntries(bounds, placed, group[k..], t, origin) == ZoneEntries(bounds, old(placed), group, t, origin)
      {
        ghost var before := placed;
        var p := PlaceComponent(group[k].reference, t, None, None);
        var e := group[k].(position := Some(Point(origin.x + p.x, origin.y + p.y)));
        assert group[k..][1..] == group[k + 1..];
        assert ZoneEntries(bounds, before, group[k..], t, origin) == [e] + ZoneEntries(bounds, placed, group[k + 1..], t, origin);
        AppendAssoc(out, e, ZoneEntries(bounds, placed, group[k + 1..], t, origin));
        out := out + [e];
        k := k + 1;
      }
    }

    /** `_layout_hierarchical`: one zone per type, each filled by a fresh
        manager with 5 mm margins; this manager's own layout is left untouched. */
    method LayoutHierarchical(components: seq<LayoutEntry>) returns (out: seq<LayoutEntry>)
      ensures out == HierarchicalLayout(bounds, components)
    {
      var types := TypesInOrder(components);
      out := [];
      if types == [] {
        return;
      }
      var z := ZoneGridFor(bounds, |types|);
      var zoneBounds := SchematicBounds(z.width, z.height, 5.0);
      var g := 0;
      while g < |types|
        invariant 0 <= g <= |types|
        invariant out + HierarchicalFrom(bounds, components, types, z, g) == HierarchicalFrom(bounds, components, types, z, 0)
      {
        var t := types[g];
        var group := OfType(components, t);
        var origin := ZoneOrigin(bounds, z, g);
        var zone := new LayoutManager(Some(zoneBounds));
        var placedGroup := zone.PlaceGroup(group, t, origin);
        assert placedGroup == ZoneEntries(zoneBounds, [], group, t, origin);
        assert HierarchicalFrom(bounds, components, types, z, g) == placedGroup + HierarchicalFrom(bounds, components, types, z, g + 1);
        out := out + placedGroup;
        g := g + 1;
      }
    }


    /** `auto_layout_components`. The circular strategy is the one not
        modelled (it places by cosine and sine); it fails here. */
    method AutoLayout(components: seq<LayoutEntry>, strategy: LayoutStrategy) returns (r: Option<seq<LayoutEntry>>)
      modifies this
      ensures r == AutoLayoutSpec(bounds, old(placed), components, strategy)
      ensures (strategy.Grid? || strategy.Row?) && r.Some? ==> placed == old(placed) + BoxesOf(r.value)
      ensures strategy.Column? ==> placed == if r.Some? then BoxesOf(r.value) else []
      ensures (strategy.Grid? && r.None?) || strategy.Hierarchical? || strategy.Circular? ==> placed == old(placed)
    {
      match strategy
      case Grid =>
        r := LayoutGrid(components);
      case Row =>
        var out := LayoutRow(components);
        r := Some(out);
      case Column =>
        r := LayoutColumn(components);
      case Circular =>
        r := None;
      case Hierarchical =>
        var out := LayoutHierarchical(components);
        r := Some(out);
    }
  }

  /** Result of `auto_layout_components` on a manager over `b` holding `placed`. */
  function AutoLayoutSpec(b: SchematicBounds, placed: seq<ComponentBounds>, cs: seq<LayoutEntry>, strategy: LayoutStrategy): Option<seq<LayoutEntry>> {
    match strategy
    case Grid => if cs == [] then None else Some(GridEntries(b, placed, cs, GridShapeFor(b, |cs|), 0))
    case Row => Some(RowEntries(b, placed, cs, RowSpacingFor(b, |cs|), 0, RowStartY(b)))
    case Column => if cs == [] then None else Some(ColumnEntries(b, ColumnSpacingFor(b, cs), cs, 0))
    case Circular => None
    case Hierarchical => Some(HierarchicalLayout(b, cs))
  }

  /** Every modelled strategy returns each component once with a position:
      in input order with only the position changed, or for the hierarchical
      strategy in grouped-by-type order. Grid and column fail exactly on an
      empty list; row and hierarchical never fail; the column strategy puts
      every component at the one column x. */
  lemma AutoLayoutPositionsEveryComponent(b: SchematicBounds, placed: seq<ComponentBounds>, cs: seq<LayoutEntry>, strategy: LayoutStrategy)
    ensures var r := AutoLayoutSpec(b, placed, cs, strategy);
      && (strategy.Grid? || strategy.Column? ==> (r.None? <==> cs == []))
      && (strategy.Row? || strategy.Hierarchical? ==> r.Some?)
      && (strategy.Circular? ==> r.None?)
      && (r.Some? && !strategy.Hierarchical? ==> Repositioned(cs, r.value))
      && (r.Some? && strategy.Hierarchical? ==> Regrouped(cs, r.value))
      && (r.Some? && strategy.Column? ==> forall k :: 0 <= k < |cs| ==> PositionOf(r.value[k]).x == ColumnX(b))
  {
    match strategy
    case Grid =>
      if cs != [] {
        GridEntriesRepositioned(b, placed, cs, GridShapeFor(b, |cs|), 0);
      }
    case Row =>
      RowEntriesRepositioned(b, placed, cs, RowSpacingFor(b, |cs|), 0, RowStartY(b));
    case Column =>
      if cs != [] {
        ColumnEntriesShape(b, ColumnSpacingFor(b, cs), cs, 0);
      }
    case Circular =>
    case Hierarchical =>
      HierarchicalLayoutRegroups(b, cs);
  }
}
