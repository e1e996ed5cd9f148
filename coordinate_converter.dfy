/** Conversion between layout millimetres and KiCad schematic units, and the
    two A4 bounds checks used to validate positions. */
module CoordinateConverter {
  import opened Common

  /** The S-expression format uses millimetres directly. */
  const KicadUnitsPerMm: real := 1.0
  const SheetWidth: real := 297.0 * KicadUnitsPerMm
  const SheetHeight: real := 210.0 * KicadUnitsPerMm
  const DefaultMargin: real := 20.0

  /** Millimetres to KiCad units: one unit per millimetre leaves the point as it is. */
  function MmToKicadUnits(p: Point): (r: Point)
    ensures r == p
  {
    Point(p.x * KicadUnitsPerMm, p.y * KicadUnitsPerMm)
  }

  /** KiCad units to millimetres, the inverse scaling. */
  function KicadUnitsToMm(p: Point): (r: Point)
    ensures r == p
  {
    Point(p.x / KicadUnitsPerMm, p.y / KicadUnitsPerMm)
  }

  /** Layout coordinates are already millimetres within the A4 sheet. */
  function LayoutToKicad(p: Point): (r: Point)
    ensures r == MmToKicadUnits(p) && r == p
  {
    MmToKicadUnits(p)
  }

  function KicadToLayout(p: Point): (r: Point)
    ensures r == KicadUnitsToMm(p) && r == p
  {
    KicadUnitsToMm(p)
  }

  lemma UnitsAreMillimetres(p: Point)
    ensures MmToKicadUnits(p) == p && KicadUnitsToMm(p) == p
  {
  }

  lemma ConversionRoundTrip(p: Point)
    ensures KicadUnitsToMm(MmToKicadUnits(p)) == p
    ensures MmToKicadUnits(KicadUnitsToMm(p)) == p
    ensures KicadToLayout(LayoutToKicad(p)) == p
  {
  }

  /** Inside the whole A4 sheet, edges included. */
  predicate ValidLayoutCoordinates(x: real, y: real) {
    0.0 <= x <= 297.0 && 0.0 <= y <= 210.0
  }

  /** Inside the sheet less `margin` on every side, edges included. */
  predicate ValidLayoutUsableArea(x: real, y: real, margin: real) {
    margin <= x <= 297.0 - margin && margin <= y <= 210.0 - margin
  }

  lemma UsableAreaWithinSheet(x: real, y: real, margin: real)
    requires margin >= 0.0 && ValidLayoutUsableArea(x, y, margin)
    ensures ValidLayoutCoordinates(x, y)
  {
  }

  /** With the default margin the usable area is [20, 277] x [20, 190]. */
  lemma DefaultUsableArea(x: real, y: real)
    ensures ValidLayoutUsableArea(x, y, DefaultMargin) <==> 20.0 <= x <= 277.0 && 20.0 <= y <= 190.0
  {
  }

  /** The module-level `validate_position`: the margin check by default. */
  function ValidatePosition(x: real, y: real, useMargins: bool): (r: bool)
    ensures useMargins ==> (r <==> ValidLayoutUsableArea(x, y, DefaultMargin))
    ensures !useMargins ==> (r <==> ValidLayoutCoordinates(x, y))
  {
    if useMargins then ValidLayoutUsableArea(x, y, DefaultMargin) else ValidLayoutCoordinates(x, y)
  }
}
