/**
 * Tile bounds on the 1 km grid. Every quantity is a multiple of 0.25 and is
 * computed exactly; `real` stands for the scripts' floats, which represent
 * all these values exactly for the coordinates of the national grid.
 */
module Bounds {

  /** An axis-aligned rectangle `[minx, maxx] x [miny, maxy]`. */
  datatype Box = Box(minx: real, miny: real, maxx: real, maxy: real)

  /** `gdal_translate -projwin` order: upper-left corner, then lower-right corner. */
  datatype Window = Window(ulx: real, uly: real, lrx: real, lry: real)

  const CellSize: real := 1000.0
  const PixelSize: real := 0.25
  const CropMargin: real := 50.0

  /** Grid index `i` starts at coordinate `1000 * i`. */
  function CellStart(i: int): real {
    i as real * CellSize
  }

  predicate StrictlyInside(inner: Box, outer: Box) {
    outer.minx < inner.minx && inner.maxx < outer.maxx
    && outer.miny < inner.miny && inner.maxy < outer.maxy
  }

  predicate Overlap(a: Box, b: Box) {
    a.minx <= b.maxx && b.minx <= a.maxx && a.miny <= b.maxy && b.miny <= a.maxy
  }

  /** DTM raster bounds of cell `(x, y)`: the cell less one pixel at its upper and right edges. */
  function DtmBounds(x: int, y: int): (b: Box)
    ensures b.minx == CellStart(x) && b.miny == CellStart(y)
    ensures b.maxx - b.minx == CellSize - PixelSize && b.maxy - b.miny == CellSize - PixelSize
    ensures b.minx < b.maxx < CellStart(x + 1) && b.miny < b.maxy < CellStart(y + 1)
  {
    var minx := x as real * 1000.0;
    var miny := y as real * 1000.0;
    Box(minx, miny, minx + 1000.0 - 0.25, miny + 1000.0 - 0.25)
  }

  /** The point-cloud crop window: the bounds widened by the margin on every side. */
  function CropWindow(b: Box): (w: Box)
    ensures StrictlyInside(b, w)
    ensures w.minx == b.minx - CropMargin && w.maxx == b.maxx + CropMargin
    ensures w.miny == b.miny - CropMargin && w.maxy == b.maxy + CropMargin
    ensures w.maxx - w.minx == b.maxx - b.minx + 2.0 * CropMargin
    ensures w.maxy - w.miny == b.maxy - b.miny + 2.0 * CropMargin
  {
    Box(b.minx - 50.0, b.miny - 50.0, b.maxx + 50.0, b.maxy + 50.0)
  }

  /** Hillshade bounds of cell `(x, y)`: exactly the cell. */
  function HillshadeBounds(x: int, y: int): (b: Box)
    ensures b.minx == CellStart(x) && b.maxx == CellStart(x + 1)
    ensures b.miny == CellStart(y) && b.maxy == CellStart(y + 1)
    ensures b.maxx - b.minx == CellSize && b.maxy - b.miny == CellSize
  {
    var minx := x as real * 1000.0;
    var miny := y as real * 1000.0;
    Box(minx, miny, minx + 1000.0, miny + 1000.0)
  }

  /** The `-projwin` window of a box: `minx, maxy, maxx, miny`. */
  function ProjWin(b: Box): (w: Window)
    ensures w.ulx == b.minx && w.lrx == b.maxx && w.uly == b.maxy && w.lry == b.miny
    ensures b.minx < b.maxx ==> w.ulx < w.lrx
    ensures b.miny < b.maxy ==> w.lry < w.uly
  {
    Window(b.minx, b.maxy, b.maxx, b.miny)
  }

  /** The crop window of a cell stays inside the 3 x 3 block formed by the cell and its neighbours. */
  lemma CropWithinNeighbourhood(x: int, y: int)
    ensures var w := CropWindow(DtmBounds(x, y));
      CellStart(x - 1) < w.minx && w.maxx < CellStart(x + 2)
      && CellStart(y - 1) < w.miny && w.maxy < CellStart(y + 2)
  {
  }

  /** DTM bounds of two different cells never overlap: the rasters tile without a shared pixel. */
  lemma DtmBoundsDisjoint(x1: int, y1: int, x2: int, y2: int)
    requires (x1, y1) != (x2, y2)
    ensures !Overlap(DtmBounds(x1, y1), DtmBounds(x2, y2))
  {
    if x1 != x2 {
      CellsApart(x1, x2);
    } else {
      CellsApart(y1, y2);
    }
  }

  /** Two different grid indices start at least one cell apart. */
  lemma CellsApart(i: int, j: int)
    requires i != j
    ensures i < j ==> CellStart(i) + CellSize <= CellStart(j)
    ensures j < i ==> CellStart(j) + CellSize <= CellStart(i)
  {
    if i < j {
      assert (j - i) as real >= 1.0;
      assert CellStart(j) - CellStart(i) == (j - i) as real * CellSize;
    } else {
      assert (i - j) as real >= 1.0;
      assert CellStart(i) - CellStart(j) == (i - j) as real * CellSize;
    }
  }

  /** Hillshades of horizontally and vertically adjacent cells share their common edge exactly. */
  lemma HillshadeBoundsAdjacent(x: int, y: int)
    ensures HillshadeBounds(x, y).maxx == HillshadeBounds(x + 1, y).minx
    ensures HillshadeBounds(x, y).maxy == HillshadeBounds(x, y + 1).miny
    ensures DtmBounds(x, y).maxx + PixelSize == DtmBounds(x + 1, y).minx
    ensures DtmBounds(x, y).maxy + PixelSize == DtmBounds(x, y + 1).miny
  {
  }
}
