/**
 The geometry of one axis of the grid: a row of `n` cells of equal size with
 gutters between them, and optionally one outer gutter before the first cell
 and one after the last. `TotalExtent` is the closed formula the effect uses
 for the span of the grid; `Layout` and `Span` are an independent, part by
 part description of the same grid, against which the formula and the centre
 guide pass are proved.
 */
module Grid {

  /** Orientation of a guide: vertical guides mark columns, horizontal ones rows. */
  datatype Orientation = Vertical | Horizontal

  /** One piece of the grid along its axis. */
  datatype Part = Cell | Gutter

  /**
   The arguments of one guide-drawing pass: `count` cells of `cellSize`
   separated by `gutter`, starting at `start`, with or without outer gutters.
   */
  datatype Pass = Pass(count: int, cellSize: real, gutter: real, start: real, outer: bool)

  /** Total span of `n` cells of `size` and their gutters. */
  function TotalExtent(n: int, size: real, gutter: real, outer: bool): real {
    if outer then n as real * size + (n + 1) as real * gutter
    else n as real * size + (n - 1) as real * gutter
  }

  /** Switching the outer gutters on adds exactly two gutters to the span. */
  lemma OuterGuttersAddTwo(n: int, size: real, gutter: real)
    ensures TotalExtent(n, size, gutter, true) == TotalExtent(n, size, gutter, false) + 2.0 * gutter
  {
  }

  /** How many cells and how many gutters a run of parts covers. */
  datatype Tally = Tally(cells: nat, gutters: nat)

  function Count(parts: seq<Part>): Tally {
    if |parts| == 0 then Tally(0, 0)
    else
      var t := Count(parts[..|parts| - 1]);
      if parts[|parts| - 1] == Cell then Tally(t.cells + 1, t.gutters) else Tally(t.cells, t.gutters + 1)
  }

  /** Sum of the widths of `parts`, each cell `size` wide and each gutter `gutter` wide. */
  function Span(parts: seq<Part>, size: real, gutter: real): real {
    var t := Count(parts);
    t.cells as real * size + t.gutters as real * gutter
  }

  lemma {:induction false} CountAppend(a: seq<Part>, b: seq<Part>)
    ensures Count(a + b).cells == Count(a).cells + Count(b).cells
    ensures Count(a + b).gutters == Count(a).gutters + Count(b).gutters
    decreases |b|
  {
    if |b| == 0 {
      assert a + b == a;
    } else {
      assert (a + b)[..|a + b| - 1] == a + b[..|b| - 1];
      CountAppend(a, b[..|b| - 1]);
    }
  }

  /**
   The parts of a grid of `n` cells in axis order: cells and gutters
   alternate, and the grid begins and ends with a gutter when the outer
   gutters are on and with a cell when they are off (an empty grid without
   outer gutters has no parts at all).
   */
  function Layout(n: nat, outer: bool): (parts: seq<Part>)
    ensures |parts| == if outer then 2 * n + 1 else if n == 0 then 0 else 2 * n - 1
    ensures forall i :: 0 < i < |parts| ==> parts[i] != parts[i - 1]
    ensures |parts| > 0 ==> parts[0] == parts[|parts| - 1] == (if outer then Gutter else Cell)
  {
    if outer then
      if n == 0 then [Gutter] else Layout(n - 1, true) + [Cell, Gutter]
    else
      if n == 0 then [] else if n == 1 then [Cell] else Layout(n - 1, false) + [Gutter, Cell]
  }

  /** A grid of `n` cells has `n` cells, `n + 1` gutters with outer gutters, `n - 1` without. */
  lemma {:induction false} LayoutCount(n: nat, outer: bool)
    ensures Count(Layout(n, outer)).cells == n
    ensures Count(Layout(n, outer)).gutters == if outer then n + 1 else if n == 0 then 0 else n - 1
  {
    var step := if outer then [Cell, Gutter] else [Gutter, Cell];
    if (outer && n > 0) || (!outer && n > 1) {
      LayoutCount(n - 1, outer);
      CountAppend(Layout(n - 1, outer), step);
      CountStep(step[0], step[1]);
      assert step == [step[0], step[1]];
    } else if outer {
      assert [Gutter][..0] == [];
    } else if n == 1 {
      assert [Cell][..0] == [];
    }
  }

  /** One cell-and-gutter step, in either order. */
  lemma CountStep(x: Part, y: Part)
    requires x != y
    ensures Count([x, y]) == Tally(1, 1)
  {
    assert [x, y][..1] == [x];
    assert [x][..0] == [];
    assert Count([x]) == if x == Cell then Tally(1, 0) else Tally(0, 1);
  }

  /**
   The closed formula for the total extent is the span of the grid's parts,
   except for an empty grid without outer gutters: it has no parts, yet the
   formula counts minus one gutter for it.
   */
  lemma TotalExtentIsSpan(n: nat, size: real, gutter: real, outer: bool)
    ensures Span(Layout(n, outer), size, gutter)
         == TotalExtent(n, size, gutter, outer) + (if !outer && n == 0 then gutter else 0.0)
  {
    LayoutCount(n, outer);
    var t := Count(Layout(n, outer));
    TallyWidth(n, size, gutter, outer, t);
  }

  lemma TallyWidth(n: nat, size: real, gutter: real, outer: bool, t: Tally)
    requires t.cells == n && t.gutters == if outer then n + 1 else if n == 0 then 0 else n - 1
    ensures t.cells as real * size + t.gutters as real * gutter
         == TotalExtent(n, size, gutter, outer) + (if !outer && n == 0 then gutter else 0.0)
  {
    if !outer && n == 0 {
      assert t.gutters as real * gutter == 0.0;
    }
  }

  /** The one grid the closed formula mismeasures: no cells and no outer gutters span minus a gutter. */
  lemma EmptyGridWithoutOuterGutters(size: real, gutter: real)
    ensures Layout(0, false) == [] && Span(Layout(0, false), size, gutter) == 0.0
    ensures TotalExtent(0, size, gutter, false) == -gutter
  {
  }

  /** A pass whose count the closed formula measures correctly: no negative count, and a cell unless outer gutters are on. */
  predicate Measured(p: Pass) {
    p.count >= (if p.outer then 0 else 1)
  }

  /** The summed width of the parts of the grid a pass with a non-negative count lays out. */
  function Width(p: Pass): real
    requires p.count >= 0
  {
    Span(Layout(p.count, p.outer), p.cellSize, p.gutter)
  }

  /** A grid of fewer cells is a prefix of a grid of more cells, outer gutters alike. */
  lemma {:induction false} LayoutPrefix(m: nat, n: nat, outer: bool)
    requires m <= n
    ensures Layout(m, outer) == Layout(n, outer)[..|Layout(m, outer)|]
    decreases n
  {
    if m < n {
      LayoutPrefix(m, n - 1, outer);
      if outer || n > 1 {
        assert Layout(n, outer)[..|Layout(n - 1, outer)|] == Layout(n - 1, outer);
      }
    }
  }

  /** Index in `Layout(n, outer)` of the gutter numbered `k` from the origin. */
  function GutterIndex(k: nat, outer: bool): nat {
    if outer then 2 * k else 2 * k + 1
  }

  /**
   Gutter number `k` exists when `k` is below the number of gutters, and the
   parts before it are `k` gutters and `k` cells, plus one leading cell when
   there are no outer gutters.
   */
  lemma GutterBefore(n: nat, k: nat, outer: bool)
    requires if outer then k <= n else k + 1 < n
    ensures GutterIndex(k, outer) < |Layout(n, outer)|
    ensures Layout(n, outer)[GutterIndex(k, outer)] == Gutter
    ensures Count(Layout(n, outer)[..GutterIndex(k, outer)]) == Tally(if outer then k else k + 1, k)
  {
    if outer {
      OuterGutterBefore(n, k);
    } else {
      InnerGutterBefore(n, k);
    }
  }

  lemma OuterGutterBefore(n: nat, k: nat)
    requires k <= n
    ensures 2 * k < |Layout(n, true)| && Layout(n, true)[2 * k] == Gutter
    ensures Count(Layout(n, true)[..2 * k]) == Tally(k, k)
  {
    // The k-cell grid ends with gutter k.
    var upTo := Layout(k, true);
    LayoutPrefix(k, n, true);
    LayoutCount(k, true);
    assert Layout(n, true)[..2 * k] == upTo[..2 * k];
    assert upTo[..2 * k + 1][..2 * k] == upTo[..2 * k];
  }

  lemma InnerGutterBefore(n: nat, k: nat)
    requires k + 1 < n
    ensures 2 * k + 1 < |Layout(n, false)| && Layout(n, false)[2 * k + 1] == Gutter
    ensures Count(Layout(n, false)[..2 * k + 1]) == Tally(k + 1, k)
  {
    // The (k+2)-cell grid is the (k+1)-cell grid followed by gutter k and a cell.
    var all, upTo := Layout(n, false), Layout(k + 2, false);
    InnerStep(k);
    LayoutPrefix(k + 2, n, false);
    PrefixAgrees(all, upTo, 2 * k + 1);
    assert all[..2 * k + 1] == Layout(k + 1, false);
    LayoutCount(k + 1, false);
  }

  lemma InnerStep(k: nat)
    ensures Layout(k + 2, false)[2 * k + 1] == Gutter
    ensures Layout(k + 2, false)[..2 * k + 1] == Layout(k + 1, false)
  {
    assert Layout(k + 2, false) == Layout(k + 1, false) + [Gutter, Cell];
  }

  /** A sequence and a prefix of it agree on everything before `i`, and at `i`. */
  lemma PrefixAgrees(all: seq<Part>, pre: seq<Part>, i: nat)
    requires |pre| <= |all| && pre == all[..|pre|]
    requires i < |pre|
    ensures all[i] == pre[i]
    ensures all[..i] == pre[..i]
  {
  }

  /**
   Gutter number `k` begins `k` cell-and-gutter steps from the start of the
   grid, plus one cell when there are no outer gutters.
   */
  lemma GutterPosition(n: nat, k: nat, size: real, gutter: real, outer: bool)
    requires if outer then k <= n else k + 1 < n
    ensures GutterIndex(k, outer) < |Layout(n, outer)|
    ensures Layout(n, outer)[GutterIndex(k, outer)] == Gutter
    ensures Span(Layout(n, outer)[..GutterIndex(k, outer)], size, gutter)
         == (if outer then 0.0 else size) + k as real * (size + gutter)
  {
    GutterBefore(n, k, outer);
    if outer {
      OuterGutterSpan(n, k, size, gutter);
    } else {
      InnerGutterSpan(n, k, size, gutter);
    }
  }

  lemma OuterGutterSpan(n: nat, k: nat, size: real, gutter: real)
    requires k <= n
    ensures Span(Layout(n, true)[..2 * k], size, gutter) == k as real * (size + gutter)
  {
    OuterGutterBefore(n, k);
    Steps(k as real, size, gutter);
  }

  lemma InnerGutterSpan(n: nat, k: nat, size: real, gutter: real)
    requires k + 1 < n
    ensures Span(Layout(n, false)[..2 * k + 1], size, gutter) == size + k as real * (size + gutter)
  {
    InnerGutterBefore(n, k);
    Steps(k as real, size, gutter);
  }

  lemma Steps(k: real, size: real, gutter: real)
    ensures k * size + k * gutter == k * (size + gutter)
    ensures (k + 1.0) * size + k * gutter == size + k * (size + gutter)
  {
  }
}
