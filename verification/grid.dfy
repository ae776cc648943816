/**
  Row-major numbering of a w-by-h grid, shared by image pixels, terrain
  quads and plane vertices: cell (x, y) is number y*w + x.
 */
module Grid {

  /** Number of cell (x, y); it lies below the cell count. */
  function Cell(x: int, y: int, w: int, h: int): (c: int)
    requires 0 <= x < w && 0 <= y < h
    ensures 0 <= c < w * h
  {
    CellRange(x, y, w, h);
    y * w + x
  }

  lemma CellRange(x: int, y: int, w: int, h: int)
    requires 0 <= x < w && 0 <= y < h
    ensures 0 <= y * w + x < w * h
  {
    assert y * w + x < y * w + w == (y + 1) * w;
    MulMono(y + 1, h, w);
  }

  lemma MulMono(a: int, b: int, w: int)
    requires 0 <= w && a <= b
    ensures a * w <= b * w
  {
  }

  /** Distinct cells have distinct numbers. */
  lemma CellInjective(x1: int, y1: int, x2: int, y2: int, w: int, h: int)
    requires 0 <= x1 < w && 0 <= y1 < h && 0 <= x2 < w && 0 <= y2 < h
    requires Cell(x1, y1, w, h) == Cell(x2, y2, w, h)
    ensures x1 == x2 && y1 == y2
  {
    if y1 < y2 {
      MulMono(y1 + 1, y2, w);
      assert false;
    } else if y2 < y1 {
      MulMono(y2 + 1, y1, w);
      assert false;
    }
  }

  lemma DivMod(q: int, w: int)
    requires 0 < w
    ensures q == (q / w) * w + q % w && 0 <= q % w < w
  {
  }

  /**
    The cell visited at position `i` of a row-major scan: column `i % w`,
    row `i / w`, and its number is `i` itself.
   */
  lemma ScanPosition(i: int, w: int, h: int)
    requires 0 < w && 0 <= i < w * h
    ensures 0 <= i % w < w && 0 <= i / w < h
    ensures Cell(i % w, i / w, w, h) == i
  {
    DivMod(i, w);
    if i / w >= h {
      MulMono(h, i / w, w);
      assert false;
    }
  }

  /** Reading a cell number back: column `c % w` and row `c / w`. */
  lemma CellCoordinates(x: int, y: int, w: int, h: int)
    requires 0 <= x < w && 0 <= y < h
    ensures Cell(x, y, w, h) % w == x && Cell(x, y, w, h) / w == y
  {
    var c := Cell(x, y, w, h);
    ScanPosition(c, w, h);
    CellInjective(c % w, c / w, x, y, w, h);
  }
}
