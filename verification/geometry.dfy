/**
  Grid geometry: the unit box, the pixel placement of one child from its
  four data attributes, and the running maximum of row extents
  (lightgrid.js lines 56-60 and 66-78).

  Axis naming follows the plugin: a child's `x` is its ROW index and drives
  `top`, its `y` is its COLUMN index and drives `left`.
 */
module Geometry {
  import opened Settings

  /** A grid child's layout hints, read from data-rows, data-cols, data-x
      and data-y. */
  datatype Child = Child(rows: nat, cols: nat, x: nat, y: nat)

  /** The unit cell every child's span is measured in. */
  datatype Box = Box(width: real, height: real)

  /** The CSS box the plugin gives one child. */
  datatype Placement = Placement(width: real, height: real, left: real, top: real)

  /** `vs`: the full gap between two adjacent columns. */
  function ColumnGap(cfg: GridConfig): real {
    cfg.vSpacing * 2.0
  }

  /** `hs`: the full gap between two adjacent rows. */
  function RowGap(cfg: GridConfig): real {
    cfg.hSpacing * 2.0
  }

  /** Distance from one column's left edge to the next one's. */
  function ColumnPitch(cfg: GridConfig, box: Box): real {
    box.width + ColumnGap(cfg)
  }

  /** Distance from one row's top edge to the next one's. */
  function RowPitch(cfg: GridConfig, box: Box): real {
    box.height + RowGap(cfg)
  }

  /** The height of `n` whole rows, each with its row gap: the container
      height the plugin sets. */
  function GridHeight(cfg: GridConfig, box: Box, n: nat): real {
    n as real * RowPitch(cfg, box)
  }

  /** The unit box for a container of the given width. Its width is the one
      value for which `cols` boxes and the `cols - 1` gaps between them
      exactly fill the container; its height is `hBox` when that is set
      (non-zero) and the width scaled by `aspectRatio` otherwise. */
  function BoxFor(cfg: GridConfig, containerWidth: real): (b: Box)
    requires Valid(cfg)
    ensures cfg.cols as real * b.width + (cfg.cols as real - 1.0) * ColumnGap(cfg) == containerWidth
    ensures cfg.hBox != 0.0 ==> b.height == cfg.hBox
    ensures cfg.hBox == 0.0 ==> b.height == b.width * cfg.aspectRatio
  {
    var w := (containerWidth - (cfg.cols as real - 1.0) * ColumnGap(cfg)) / cfg.cols as real;
    Box(w, if cfg.hBox != 0.0 then cfg.hBox else w * cfg.aspectRatio)
  }

  /** The placement of one child. The gap is absorbed inside the spanned
      boxes: a child's width plus one gap is a whole number of column
      pitches, and likewise for its height. */
  function Place(cfg: GridConfig, box: Box, c: Child): (p: Placement)
    ensures p.width + ColumnGap(cfg) == c.cols as real * ColumnPitch(cfg, box)
    ensures p.height + RowGap(cfg) == c.rows as real * RowPitch(cfg, box)
    ensures p.left == c.y as real * ColumnPitch(cfg, box)
    ensures p.top == c.x as real * RowPitch(cfg, box)
  {
    var vs := ColumnGap(cfg);
    var hs := RowGap(cfg);
    Placement(
      c.cols as real * (box.width + vs) - vs,
      c.rows as real * (box.height + hs) - hs,
      c.y as real * (box.width + vs),
      c.x as real * (box.height + hs))
  }

  /** The placement of every child, in order. */
  function PlaceAll(cfg: GridConfig, box: Box, cs: seq<Child>): (ps: seq<Placement>)
    ensures |ps| == |cs|
    ensures forall i :: 0 <= i < |cs| ==> ps[i] == Place(cfg, box, cs[i])
  {
    seq(|cs|, i requires 0 <= i < |cs| => Place(cfg, box, cs[i]))
  }

  /** The number of rows a child reaches down to. */
  function Extent(c: Child): nat {
    c.x + c.rows
  }

  /** `numRows` after visiting `cs` in order, starting from `n`: each visit
      replaces it by the larger of itself and the child's extent. The result
      is the maximum of `n` and all extents. */
  function RunningMax(n: nat, cs: seq<Child>): (r: nat)
    ensures n <= r
    ensures forall i :: 0 <= i < |cs| ==> Extent(cs[i]) <= r
    ensures r == n || exists i :: 0 <= i < |cs| && r == Extent(cs[i])
    decreases |cs|
  {
    if cs == [] then n
    else
      var m := if n < Extent(cs[0]) then Extent(cs[0]) else n;
      RunningMax(m, cs[1..])
  }

  /** Scaling a non-negative pitch preserves the order of span counts. */
  lemma ScaleMonotone(a: nat, b: nat, p: real)
    requires a <= b
    requires 0.0 <= p
    ensures a as real * p <= b as real * p
  {
    assert b as real * p - a as real * p == (b - a) as real * p;
  }

  /** A child spanning all columns from the first one fills the container
      width exactly, from its left edge. */
  lemma FullWidthFillsContainer(cfg: GridConfig, containerWidth: real, c: Child)
    requires Valid(cfg)
    requires c.cols == cfg.cols && c.y == 0
    ensures Place(cfg, BoxFor(cfg, containerWidth), c).width == containerWidth
    ensures Place(cfg, BoxFor(cfg, containerWidth), c).left == 0.0
  {
    var box := BoxFor(cfg, containerWidth);
    var n := cfg.cols as real;
    var vs := ColumnGap(cfg);
    calc {
      Place(cfg, box, c).width;
      n * (box.width + vs) - vs;
      n * box.width + (n - 1.0) * vs;
      containerWidth;
    }
  }

  /** The right edge of a child plus one column gap is the left edge of a
      child starting in the first column after its span. */
  lemma HorizontalTiling(cfg: GridConfig, box: Box, a: Child, b: Child)
    requires b.y == a.y + a.cols
    ensures Place(cfg, box, a).left + Place(cfg, box, a).width + ColumnGap(cfg) == Place(cfg, box, b).left
  {
    var p := ColumnPitch(cfg, box);
    assert b.y as real * p == a.y as real * p + a.cols as real * p;
  }

  /** The bottom edge of a child plus one row gap is the top edge of a child
      starting in the first row after its span. */
  lemma VerticalTiling(cfg: GridConfig, box: Box, a: Child, b: Child)
    requires b.x == a.x + a.rows
    ensures Place(cfg, box, a).top + Place(cfg, box, a).height + RowGap(cfg) == Place(cfg, box, b).top
  {
    var p := RowPitch(cfg, box);
    assert b.x as real * p == a.x as real * p + a.rows as real * p;
  }

  /** With non-negative spacing and box width, a child whose columns all
      lie left of another's ends at least one column gap before it: columns
      never overlap. */
  lemma ColumnsDoNotOverlap(cfg: GridConfig, box: Box, a: Child, b: Child)
    requires 0.0 <= cfg.vSpacing && 0.0 <= box.width
    requires a.y + a.cols <= b.y
    ensures Place(cfg, box, a).left + Place(cfg, box, a).width + ColumnGap(cfg) <= Place(cfg, box, b).left
  {
    var p := ColumnPitch(cfg, box);
    ScaleMonotone(a.y + a.cols, b.y, p);
    assert (a.y + a.cols) as real * p == a.y as real * p + a.cols as real * p;
  }

  /** The row-axis counterpart of `ColumnsDoNotOverlap`. */
  lemma RowsDoNotOverlap(cfg: GridConfig, box: Box, a: Child, b: Child)
    requires 0.0 <= cfg.hSpacing && 0.0 <= box.height
    requires a.x + a.rows <= b.x
    ensures Place(cfg, box, a).top + Place(cfg, box, a).height + RowGap(cfg) <= Place(cfg, box, b).top
  {
    var p := RowPitch(cfg, box);
    ScaleMonotone(a.x + a.rows, b.x, p);
    assert (a.x + a.rows) as real * p == a.x as real * p + a.rows as real * p;
  }

  /** A child's bottom edge plus one row gap is its extent times the row
      pitch, so it lies within `n` rows whenever its extent does. */
  lemma WithinRows(cfg: GridConfig, box: Box, c: Child, n: nat)
    requires Extent(c) <= n
    requires 0.0 <= RowPitch(cfg, box)
    ensures Place(cfg, box, c).top + Place(cfg, box, c).height + RowGap(cfg)
         == Extent(c) as real * RowPitch(cfg, box)
    ensures Place(cfg, box, c).top + Place(cfg, box, c).height + RowGap(cfg)
         <= GridHeight(cfg, box, n)
  {
    var p := RowPitch(cfg, box);
    assert Extent(c) as real * p == c.x as real * p + c.rows as real * p;
    ScaleMonotone(Extent(c), n, p);
  }

  /** Folding again over children already accounted for changes nothing. */
  lemma RunningMaxSettled(n: nat, cs: seq<Child>)
    requires forall i :: 0 <= i < |cs| ==> Extent(cs[i]) <= n
    ensures RunningMax(n, cs) == n
  {
  }
}
