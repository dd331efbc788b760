/**
  The `lightgrid` jQuery plugin as pure functions: the setup pass that
  guards the container's CSS position, places every child and sets the
  container height (lightgrid.js lines 43-143), and the resize `redraw`
  step (lines 80-94).

  DOM reads become inputs: the container's position mode and width
  (`this.css('position')`, `this.width()`), the two viewport widths read by
  `getViewportWidth`, and the children matched by the selector. DOM writes
  become outputs: the container record and the per-child placements.
 */
module Lightgrid {
  import opened Wrappers
  import opened Settings
  import opened Geometry

  /** The CSS `position` values a container can have. */
  datatype Position = Static | Relative | Absolute | Fixed | Sticky

  /** The grid container: its position mode, its current width and the
      height the plugin last gave it (or had before). */
  datatype Container = Container(position: Position, width: real, height: real)

  /** What the plugin's closure keeps between a setup and later redraws:
      the viewport width of the last pass, the unit box, the running
      `numRows`, and the placement it gave each child. */
  datatype GridState = GridState(lastWidth: real, box: Box, numRows: nat, placements: seq<Placement>)

  /** A laid-out grid: the container together with the closure state. */
  datatype Grid = Grid(container: Container, state: GridState)

  /** How a call to the plugin ends. `FixedPositionError` is the `$.error`
      raised for a fixed container, which is handed back as it was;
      `NoElements` is the early return when the selector matched nothing;
      `Ready` is a laid-out grid, with `listening` telling whether the
      resize and orientation handlers that call `redraw` were installed. */
  datatype SetupOutcome =
    | FixedPositionError(container: Container)
    | NoElements(container: Container)
    | Ready(grid: Grid, listening: bool)

  /** `getViewportWidth`: the larger of the document element's client width
      and the window's inner width. */
  function ViewportWidth(clientWidth: real, innerWidth: real): (w: real)
    ensures clientWidth <= w && innerWidth <= w
    ensures w == clientWidth || w == innerWidth
  {
    if clientWidth > innerWidth then clientWidth else innerWidth
  }

  /** The position guard: a fixed container is refused (None), a static one
      becomes relative so that absolutely positioned children are placed
      against it, and any other mode is kept. */
  function PositionGuard(p: Position): (r: Option<Position>)
    ensures r.None? <==> p == Fixed
    ensures r.Some? ==> r.value != Static && r.value != Fixed
    ensures r.Some? && p != Static ==> r.value == p
    ensures p == Static ==> r == Some(Relative)
  {
    match p
    case Fixed => None
    case Static => Some(Relative)
    case _ => Some(p)
  }

  /** The guard is idempotent: a position it has already accepted or fixed
      up passes it again unchanged, so laying out the same container twice
      never moves it to another mode. */
  lemma PositionGuardIdempotent(p: Position)
    ensures PositionGuard(p).Some? ==> PositionGuard(PositionGuard(p).value) == PositionGuard(p)
  {
  }

  /** The outcome of one layout pass: the unit box, the `numRows` reached
      and the placement of every child, in order. */
  datatype Pass = Pass(box: Box, numRows: nat, placements: seq<Placement>)

  /** One full layout pass over `children` with the box for `containerWidth`:
      the placements and the `numRows` reached from `numRows0`. */
  function Layout(cfg: GridConfig, containerWidth: real, children: seq<Child>, numRows0: nat)
    : (r: Pass)
    requires Valid(cfg)
    ensures r.box == BoxFor(cfg, containerWidth)
    ensures numRows0 <= r.numRows
    ensures forall i :: 0 <= i < |children| ==> Extent(children[i]) <= r.numRows
    ensures r.numRows == numRows0 || exists i :: 0 <= i < |children| && r.numRows == Extent(children[i])
    ensures |r.placements| == |children|
    ensures forall i :: 0 <= i < |children| ==> r.placements[i] == Place(cfg, r.box, children[i])
  {
    var box := BoxFor(cfg, containerWidth);
    Pass(box, RunningMax(numRows0, children), PlaceAll(cfg, box, children))
  }

  /** `$.fn.lightgrid`: the setup call. The viewport width is recorded
      first; a fixed container is refused untouched; otherwise the position
      is fixed up, and when there are children each is placed, `numRows`
      becomes the largest row extent, and the container is given exactly
      `numRows` row pitches of height. */
  function Setup(cfg: GridConfig, c: Container, children: seq<Child>, clientWidth: real, innerWidth: real)
    : (r: SetupOutcome)
    requires Valid(cfg)
    ensures r.FixedPositionError? <==> c.position == Fixed
    ensures r.FixedPositionError? ==> r.container == c
    ensures r.NoElements? <==> c.position != Fixed && children == []
    ensures r.NoElements? ==>
      r.container == c.(position := if c.position == Static then Relative else c.position)
    ensures r.Ready? ==>
      var g := r.grid;
      && g.container.position == (if c.position == Static then Relative else c.position)
      && g.container.width == c.width
      && r.listening == cfg.fluid
      && g.state.lastWidth == ViewportWidth(clientWidth, innerWidth)
      && g.state.box == BoxFor(cfg, c.width)
      && |g.state.placements| == |children|
      && (forall i :: 0 <= i < |children| ==> g.state.placements[i] == Place(cfg, g.state.box, children[i]))
      && (forall i :: 0 <= i < |children| ==> Extent(children[i]) <= g.state.numRows)
      && (exists i :: 0 <= i < |children| && g.state.numRows == Extent(children[i]))
      && g.container.height == GridHeight(cfg, g.state.box, g.state.numRows)
  {
    var lastWidth := ViewportWidth(clientWidth, innerWidth);
    match PositionGuard(c.position)
    case None => FixedPositionError(c)
    case Some(pos) =>
      if children == [] then NoElements(c.(position := pos))
      else
        var pass := Layout(cfg, c.width, children, 0);
        var height := GridHeight(cfg, pass.box, pass.numRows);
        Ready(Grid(Container(pos, c.width, height), GridState(lastWidth, pass.box, pass.numRows, pass.placements)), cfg.fluid)
  }

  /** `redraw`, as the plugin has it. `g.container.width` is the container's
      width at the time of the call. When the viewport width equals the one
      recorded last, nothing changes. Otherwise the box is recomputed from
      the container's current width, every child is placed again, `numRows`
      keeps growing from its previous value and the new viewport width is
      recorded; the container itself, its height included, is left alone. */
  function Redraw(cfg: GridConfig, children: seq<Child>, clientWidth: real, innerWidth: real, g: Grid)
    : (r: Grid)
    requires Valid(cfg)
    ensures r.container == g.container
    ensures ViewportWidth(clientWidth, innerWidth) == g.state.lastWidth ==> r == g
    ensures ViewportWidth(clientWidth, innerWidth) != g.state.lastWidth ==>
      && r.state.lastWidth == ViewportWidth(clientWidth, innerWidth)
      && r.state.box == BoxFor(cfg, g.container.width)
      && |r.state.placements| == |children|
      && (forall i :: 0 <= i < |children| ==> r.state.placements[i] == Place(cfg, r.state.box, children[i]))
      && g.state.numRows <= r.state.numRows
      && (forall i :: 0 <= i < |children| ==> Extent(children[i]) <= r.state.numRows)
      && (r.state.numRows == g.state.numRows || exists i :: 0 <= i < |children| && r.state.numRows == Extent(children[i]))
  {
    if g.state.lastWidth != ViewportWidth(clientWidth, innerWidth) then
      var pass := Layout(cfg, g.container.width, children, g.state.numRows);
      Grid(g.container, GridState(ViewportWidth(clientWidth, innerWidth), pass.box, pass.numRows, pass.placements))
    else
      g
  }

  /** `redraw` as evidently intended: the same guard and recomputation, but
      a pass that re-places the children also sets the container height
      again from `numRows` and the new box, as setup does. */
  function RedrawWithHeight(cfg: GridConfig, children: seq<Child>, clientWidth: real, innerWidth: real, g: Grid)
    : (r: Grid)
    requires Valid(cfg)
    ensures r.container.position == g.container.position && r.container.width == g.container.width
    ensures ViewportWidth(clientWidth, innerWidth) == g.state.lastWidth ==> r == g
    ensures ViewportWidth(clientWidth, innerWidth) != g.state.lastWidth ==>
      && r.state == Redraw(cfg, children, clientWidth, innerWidth, g).state
      && r.container.height == GridHeight(cfg, r.state.box, r.state.numRows)
  {
    var d := Redraw(cfg, children, clientWidth, innerWidth, g);
    if g.state.lastWidth != ViewportWidth(clientWidth, innerWidth) then
      d.(container := d.container.(height := GridHeight(cfg, d.state.box, d.state.numRows)))
    else
      d
  }

  /** Every placed child, together with the row gap below it, lies inside
      the container's height. */
  predicate ChildrenInside(cfg: GridConfig, g: Grid) {
    forall i :: 0 <= i < |g.state.placements| ==>
      g.state.placements[i].top + g.state.placements[i].height + RowGap(cfg) <= g.container.height
  }

  /** After setup every child lies inside the container (as long as the row
      pitch is not negative, which holds for any non-negative spacing and
      box height). */
  lemma SetupChildrenInside(cfg: GridConfig, c: Container, children: seq<Child>, clientWidth: real, innerWidth: real)
    requires Valid(cfg)
    requires 0.0 <= RowPitch(cfg, BoxFor(cfg, c.width))
    ensures Setup(cfg, c, children, clientWidth, innerWidth).Ready? ==>
      ChildrenInside(cfg, Setup(cfg, c, children, clientWidth, innerWidth).grid)
  {
    var r := Setup(cfg, c, children, clientWidth, innerWidth);
    if r.Ready? {
      var g := r.grid;
      forall i | 0 <= i < |g.state.placements|
        ensures g.state.placements[i].top + g.state.placements[i].height + RowGap(cfg) <= g.container.height
      {
        WithinRows(cfg, g.state.box, children[i], g.state.numRows);
      }
    }
  }

  /** The corrected redraw keeps every child inside the container. */
  lemma RedrawWithHeightKeepsChildrenInside(
    cfg: GridConfig, children: seq<Child>, clientWidth: real, innerWidth: real, g: Grid)
    requires Valid(cfg)
    requires ChildrenInside(cfg, g)
    requires 0.0 <= RowPitch(cfg, BoxFor(cfg, g.container.width))
    ensures ChildrenInside(cfg, RedrawWithHeight(cfg, children, clientWidth, innerWidth, g))
  {
    var r := RedrawWithHeight(cfg, children, clientWidth, innerWidth, g);
    if ViewportWidth(clientWidth, innerWidth) != g.state.lastWidth {
      forall i | 0 <= i < |r.state.placements|
        ensures r.state.placements[i].top + r.state.placements[i].height + RowGap(cfg) <= r.container.height
      {
        WithinRows(cfg, r.state.box, children[i], r.state.numRows);
      }
    }
  }

  /** The redraw as written can leave a child hanging out of the container:
      one column, no spacing, square boxes, a single one-cell child; set up
      in a 100px container, then the container grows to 200px and the
      viewport widens. The child becomes 200px tall while the container
      keeps its 100px height. */
  lemma RedrawLeavesStaleHeight(children: seq<Child>)
    requires |children| == 1 && children[0] == Child(1, 1, 0, 0)
    ensures
      var cfg := GridConfig(1, 0.0, 0.0, "div", 1.0, 0.0, false);
      var s := Setup(cfg, Container(Relative, 100.0, 0.0), children, 120.0, 120.0);
      && s.Ready?
      && ChildrenInside(cfg, s.grid)
      && var g := Redraw(cfg, children, 220.0, 220.0, s.grid.(container := s.grid.container.(width := 200.0)));
      && g.container.height == 100.0
      && g.state.placements[0].height == 200.0
      && !ChildrenInside(cfg, g)
  {
    var cfg := GridConfig(1, 0.0, 0.0, "div", 1.0, 0.0, false);
    var box := BoxFor(cfg, 100.0);
    assert box == Box(100.0, 100.0);
    assert RunningMax(0, children) == 1;
    assert Place(cfg, box, children[0]) == Placement(100.0, 100.0, 0.0, 0.0);
    var s := Setup(cfg, Container(Relative, 100.0, 0.0), children, 120.0, 120.0);
    assert s.grid.state.placements == [Placement(100.0, 100.0, 0.0, 0.0)];
    assert s.grid.container.height == 100.0;
    var box' := BoxFor(cfg, 200.0);
    assert box' == Box(200.0, 200.0);
    assert Place(cfg, box', children[0]) == Placement(200.0, 200.0, 0.0, 0.0);
  }

  /** Calling the plugin again on the container it has just laid out, with
      the same width, children and viewport, gives the same container and
      the same state: setup is idempotent. */
  lemma SetupIdempotent(cfg: GridConfig, c: Container, children: seq<Child>, clientWidth: real, innerWidth: real)
    requires Valid(cfg)
    requires Setup(cfg, c, children, clientWidth, innerWidth).Ready?
    ensures
      var g := Setup(cfg, c, children, clientWidth, innerWidth).grid;
      Setup(cfg, g.container, children, clientWidth, innerWidth) == Ready(g, cfg.fluid)
  {
  }

  /** A second redraw for the same viewport width changes nothing, whatever
      the first one did. */
  lemma RedrawIdempotent(cfg: GridConfig, children: seq<Child>, clientWidth: real, innerWidth: real, g: Grid)
    requires Valid(cfg)
    ensures
      var once := Redraw(cfg, children, clientWidth, innerWidth, g);
      Redraw(cfg, children, clientWidth, innerWidth, once) == once
  {
  }

  /** A redraw after setup with the container width unchanged reproduces the
      setup's box, `numRows` and placements; only the recorded viewport
      width may move. */
  lemma RedrawSameWidthKeepsLayout(
    cfg: GridConfig, c: Container, children: seq<Child>, clientWidth: real, innerWidth: real,
    clientWidth': real, innerWidth': real)
    requires Valid(cfg)
    requires Setup(cfg, c, children, clientWidth, innerWidth).Ready?
    ensures
      var g := Setup(cfg, c, children, clientWidth, innerWidth).grid;
      var r := Redraw(cfg, children, clientWidth', innerWidth', g);
      && r.container == g.container
      && r.state.box == g.state.box
      && r.state.numRows == g.state.numRows
      && r.state.placements == g.state.placements
      && r.state.lastWidth == ViewportWidth(clientWidth', innerWidth')
  {
    var g := Setup(cfg, c, children, clientWidth, innerWidth).grid;
    RunningMaxSettled(g.state.numRows, children);
  }

  /** The box recomputed by a redraw follows the same width and height rule
      as the one computed at setup for a container of that width. Both sides
      come from `BoxFor`, so this holds by construction: the model states
      that lines 84-85 repeat lines 59-60 by having `Setup` and `Redraw`
      call the same function, and this lemma only records that fact. */
  lemma RedrawBoxMatchesSetup(
    cfg: GridConfig, children: seq<Child>, clientWidth: real, innerWidth: real, g: Grid,
    clientWidth': real, innerWidth': real)
    requires Valid(cfg)
    requires children != [] && g.container.position != Fixed
    requires ViewportWidth(clientWidth, innerWidth) != g.state.lastWidth
    ensures
      Redraw(cfg, children, clientWidth, innerWidth, g).state.box
      == Setup(cfg, g.container, children, clientWidth', innerWidth').grid.state.box
  {
  }

  /** The four-column grid from the plugin's usage comment (children #1 to
      #4), in a 400px container with the default 10px spacing and square
      boxes: the box is 85px wide and tall, #2 spans two columns from the
      second one, #3 spans two rows in the last column, #4 fills three
      columns of the second row, and the grid is two rows (210px) tall. */
  lemma DocumentedExample(children: seq<Child>)
    requires |children| == 4
    requires children[0] == Child(1, 1, 0, 0) && children[1] == Child(1, 2, 0, 1)
    requires children[2] == Child(2, 1, 0, 3) && children[3] == Child(1, 3, 1, 0)
    ensures
      var s := Setup(WithDefaults(NoOptions.(cols := Some(4))), Container(Static, 400.0, 0.0), children, 1024.0, 1024.0);
      && s.Ready?
      && s.grid.container == Container(Relative, 400.0, 210.0)
      && s.grid.state.box == Box(85.0, 85.0)
      && s.grid.state.placements == [
           Placement(85.0, 85.0, 0.0, 0.0),
           Placement(190.0, 85.0, 105.0, 0.0),
           Placement(85.0, 190.0, 315.0, 0.0),
           Placement(295.0, 85.0, 0.0, 105.0)]
  {
    var cfg := WithDefaults(NoOptions.(cols := Some(4)));
    assert cfg == GridConfig(4, 10.0, 10.0, "div", 1.0, 0.0, false);
    var box := BoxFor(cfg, 400.0);
    assert box == Box(85.0, 85.0);
    assert RunningMax(0, children) == 2 by {
      assert forall i :: 0 <= i < |children| ==> Extent(children[i]) <= 2;
    }
    assert GridHeight(cfg, box, 2) == 210.0;
    assert Place(cfg, box, children[0]) == Placement(85.0, 85.0, 0.0, 0.0);
    assert Place(cfg, box, children[1]) == Placement(190.0, 85.0, 105.0, 0.0);
    assert Place(cfg, box, children[2]) == Placement(85.0, 190.0, 315.0, 0.0);
    assert Place(cfg, box, children[3]) == Placement(295.0, 85.0, 0.0, 105.0);
  }
}
