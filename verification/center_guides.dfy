/**
 The secondary guide pass aimed at the middle of every gutter of the main
 grid. It is expressed as another main-grid pass whose cells are one
 cell-and-gutter step wide and whose gutter is zero; which guides the drawing
 helper makes of it is not part of this model, so what is proved is that the
 pass's lattice `start + k * cellSize`, `k = 0 .. count`, is the set of
 gutter midpoints.
 */
module CenterGuides {
  import opened Grid

  /**
   The secondary pass aimed at the middle of each gutter of `main`: cells one
   step (`cellSize + gutter`) wide, no gutter, the same outer-gutter flag,
   starting at the middle of the first gutter.
   */
  function CenterPass(main: Pass): (c: Pass)
    ensures c.cellSize == main.cellSize + main.gutter && c.gutter == 0.0 && c.outer == main.outer
    ensures c.count < 0 <==> (if main.outer then main.count < 0 else main.count < 2)
  {
    if main.outer then
      Pass(main.count, main.cellSize + main.gutter, 0.0, main.start + main.gutter / 2.0, true)
    else
      Pass(main.count - 2, main.cellSize + main.gutter, 0.0, main.start + main.gutter / 2.0 + main.cellSize, false)
  }

  /**
   The centre pass's `count + 1` lattice points `start + k * cellSize` are
   exactly the midpoints of the gutters of the main grid, one per gutter.
   */
  lemma CenterPassHitsGutterMidpoints(main: Pass, k: nat)
    requires main.count >= (if main.outer then 0 else 1)
    requires k <= CenterPass(main).count
    ensures CenterPass(main).count + 1 == Count(Layout(main.count, main.outer)).gutters
    ensures Layout(main.count, main.outer)[GutterIndex(k, main.outer)] == Gutter
    ensures CenterPass(main).start + k as real * CenterPass(main).cellSize
         == main.start + Span(Layout(main.count, main.outer)[..GutterIndex(k, main.outer)], main.cellSize, main.gutter)
            + main.gutter / 2.0
  {
    CenterCountIsGutterCount(main);
    GutterBefore(main.count, k, main.outer);
    CenterPointIsMidpoint(main, k);
  }

  /**
   Without outer gutters and with no cells, the centre pass's lattice would
   have `-1` points, against a main grid with no gutter at all.
   */
  lemma CenterCountOfEmptyGrid(main: Pass)
    requires !main.outer && main.count == 0
    ensures CenterPass(main).count == -2
    ensures Count(Layout(main.count, main.outer)).gutters == 0
  {
  }

  lemma CenterCountIsGutterCount(main: Pass)
    requires main.count >= (if main.outer then 0 else 1)
    ensures CenterPass(main).count + 1 == Count(Layout(main.count, main.outer)).gutters
  {
    LayoutCount(main.count, main.outer);
  }

  lemma CenterPointIsMidpoint(main: Pass, k: nat)
    requires main.count >= (if main.outer then 0 else 1)
    requires k <= CenterPass(main).count
    ensures CenterPass(main).start + k as real * CenterPass(main).cellSize
         == main.start + Span(Layout(main.count, main.outer)[..GutterIndex(k, main.outer)], main.cellSize, main.gutter)
            + main.gutter / 2.0
  {
    if main.outer {
      OuterCenterPoint(main, k);
    } else {
      InnerCenterPoint(main, k);
    }
  }

  lemma OuterCenterPoint(main: Pass, k: nat)
    requires main.outer && 0 <= main.count && k <= main.count
    ensures CenterPass(main).start + k as real * CenterPass(main).cellSize
         == main.start + Span(Layout(main.count, true)[..2 * k], main.cellSize, main.gutter) + main.gutter / 2.0
  {
    OuterGutterSpan(main.count, k, main.cellSize, main.gutter);
    CenterLattice(main, k, Span(Layout(main.count, true)[..2 * k], main.cellSize, main.gutter));
  }

  lemma InnerCenterPoint(main: Pass, k: nat)
    requires !main.outer && k + 1 < main.count
    ensures CenterPass(main).start + k as real * CenterPass(main).cellSize
         == main.start + Span(Layout(main.count, false)[..2 * k + 1], main.cellSize, main.gutter) + main.gutter / 2.0
  {
    InnerGutterSpan(main.count, k, main.cellSize, main.gutter);
    CenterLattice(main, k, Span(Layout(main.count, false)[..2 * k + 1], main.cellSize, main.gutter));
  }

  /** The k-th centre lattice point, given the span of the main grid before gutter k. */
  lemma CenterLattice(main: Pass, k: nat, before: real)
    requires before == (if main.outer then 0.0 else main.cellSize) + k as real * (main.cellSize + main.gutter)
    ensures CenterPass(main).start + k as real * CenterPass(main).cellSize == main.start + before + main.gutter / 2.0
  {
  }
}
