# lightgrid geometry, in Dafny

A model of the `lightgrid` jQuery plugin, which lays out a container's
children on a fixed grid. Each child carries four integer hints:
`data-rows`, `data-cols`, `data-x` (row index) and `data-y` (column index).
The plugin works out a unit box from the container width, the column count
and the spacing. From that box it gives every child an absolute `width`,
`height`, `left` and `top`, and it sets the container's height to cover the
lowest row any child reaches. A fluid grid re-places the children after a
resize or an orientation change, but only when the viewport width has
changed. That step recomputes the box and the child placements. It does
not set the container height again.

Everything is written as pure functions over immutable records. Pixel
quantities are exact `real`s and the data attributes are `nat`s. DOM reads
become inputs and DOM writes become outputs:

- `wrappers.dfy` (`Wrappers`): `Option`, for options a caller leaves out.
- `settings.dfy` (`Settings`): the options, the defaults and how they merge.
- `geometry.dfy` (`Geometry`): the unit box, one child's placement, and the
  running maximum `numRows`. It also holds the tiling, non-overlap and
  containment lemmas.
- `lightgrid.dfy` (`Lightgrid`): the viewport width, the CSS position guard,
  the setup call and the resize `redraw`, with lemmas relating them.

The plugin's axis naming is kept. A child's `x` is its row and drives
`top`; its `y` is its column and drives `left`. `vSpacing` widens the gap
between columns (`vs = 2 * vSpacing`) and `hSpacing` the gap between rows
(`hs = 2 * hSpacing`).

## Model

| member | source | states |
|---|---|---|
| `Settings.WithDefaults` | lightgrid.js:45-53 | every option the caller gives is kept; every omitted one takes its default: cols 3, hSpacing 10, vSpacing 10, selector "div", aspectRatio 1, hBox 0, fluid false |
| `Settings.NoOptionsGiveDefaults` | lightgrid.js:45-53 | with no options the settings are exactly the defaults, and the default column count is usable |
| `Settings.ValidUnlessZeroColumns` | lightgrid.js:59 | the merged settings give a non-zero divisor for the box width exactly when the caller does not pass `cols: 0` |
| `Geometry.BoxFor` | lightgrid.js:56-60 | `cols` boxes plus the `cols - 1` column gaps between them add up to exactly the container width; the box height is `hBox` when non-zero, else box width times aspectRatio |
| `Geometry.Place` | lightgrid.js:66-78 | a child's width plus one column gap is its column span times the column pitch (box width + vs), and likewise for height and rows; left and top are whole multiples of the pitches given by its column and row index |
| `Geometry.RunningMax` | lightgrid.js:67 | folding `numRows = max(numRows, x + rows)` over the children gives a value at least the start and every child's extent, and equal to the start or to one child's extent: the maximum |
| `Geometry.RunningMaxSettled` | lightgrid.js:67 | folding again over children whose extents are already covered leaves `numRows` unchanged |
| `Geometry.FullWidthFillsContainer` | lightgrid.js:56-75 | a child spanning all columns from column 0 has left 0 and width equal to the container width |
| `Geometry.HorizontalTiling` | lightgrid.js:73-75 | a child's left + width + vs is exactly the left of a child starting in the column right after its span |
| `Geometry.VerticalTiling` | lightgrid.js:74-76 | a child's top + height + hs is exactly the top of a child starting in the row right after its span |
| `Geometry.ColumnsDoNotOverlap` | lightgrid.js:73-75 | with non-negative spacing and box width, a child whose columns end at or before another's first column ends at least one full gap to its left |
| `Geometry.RowsDoNotOverlap` | lightgrid.js:74-76 | the same for rows: a child whose rows end at or before another's first row ends at least one full gap above it |
| `Geometry.WithinRows` | lightgrid.js:74-76 | a child's top + height + hs equals its extent (x + rows) times the row pitch, so it lies within any number of rows that covers its extent |
| `Lightgrid.ViewportWidth` | lightgrid.js:36-41 | the viewport width is the larger of the document client width and the window inner width: at least both, and equal to one of them |
| `Lightgrid.PositionGuard` | lightgrid.js:115-121 | `fixed` is refused; `static` becomes `relative`; every other mode is kept |
| `Lightgrid.PositionGuardIdempotent` | lightgrid.js:115-121 | a position the guard has accepted or fixed up passes the guard again unchanged, so a second setup of the same container never changes its mode |
| `Lightgrid.Layout` | lightgrid.js:127-129 | one pass gives every child, in order, its placement for the box of the current container width, and folds `numRows` over their extents |
| `Lightgrid.Setup` | lightgrid.js:115-132 | a fixed container is refused and returned as it was; otherwise static becomes relative. With no children nothing else happens. With children, each gets its placement, `numRows` is the largest extent, the container height is `numRows` row pitches, the viewport width is recorded, and resize handling is installed iff `fluid` |
| `Lightgrid.Redraw` | lightgrid.js:80-94 | with the viewport width unchanged the grid is left exactly as it was. Otherwise the box follows the container's current width, every child is re-placed, `numRows` is the maximum of its old value and all extents, and the new viewport width is recorded. The container, its height included, is never changed |
| `Lightgrid.RedrawWithHeight` | lightgrid.js:80-94 | the corrected redraw: the same guard and recomputation, and a pass that re-places the children also sets the container height to `numRows` row pitches |
| `Lightgrid.SetupChildrenInside` | lightgrid.js:127-132 | after setup, with a non-negative row pitch, every child's top + height + hs is within the container height |
| `Lightgrid.RedrawWithHeightKeepsChildrenInside` | lightgrid.js:82-93 | the corrected redraw keeps every child inside the container whenever the new row pitch is non-negative |
| `Lightgrid.RedrawLeavesStaleHeight` | lightgrid.js:82-93 | counterexample: after the container widens, the redraw as written leaves a child 200px tall in a container that is still 100px tall |
| `Lightgrid.SetupIdempotent` | lightgrid.js:115-132 | calling the plugin again on the container it just laid out, with the same width, children and viewport, gives the same container and state |
| `Lightgrid.RedrawIdempotent` | lightgrid.js:82-93 | a second redraw at the same viewport width changes nothing, whatever the first one did |
| `Lightgrid.RedrawSameWidthKeepsLayout` | lightgrid.js:82-93 | a redraw after setup with the container width unchanged reproduces the setup's box, `numRows` and placements; only the recorded viewport width can move |
| `Lightgrid.RedrawBoxMatchesSetup` | lightgrid.js:84-85 | a redraw computes the box by the same width and height rule that setup uses for a container of that width |
| `Lightgrid.DocumentedExample` | lightgrid.js:4-21 | the four-child, four-column example in a 400px container: box 85x85, placements (85,85,0,0), (190,85,105,0), (85,190,315,0), (295,85,0,105), container relative and 210px tall |

## Left out

- `waitForFinalEvent` (lightgrid.js:97-108) is a `setTimeout` debounce; its point is timing, so only the `redraw` it eventually calls is modelled.
- The `$(window).resize` and `matchMedia(...).addListener` bindings (lightgrid.js:134-140) are host event wiring. `Ready.listening` records whether they were installed. A resize reaches `redraw` through the debounce; the orientation listener calls `redraw` directly. `Lightgrid.Redraw` is the same step either way.
- Selecting children with `$(s.selector, this)` is DOM querying. The matched children are an input sequence, and `selector` is kept only as a setting.
- `$.extend` is modelled only for the seven option keys the plugin reads, not as a general object merge.
- `$.error` throws in jQuery, so the `return this` after it never runs. The thrown error is modelled as the `FixedPositionError` outcome carrying the untouched container.
- Each child also gets `position: absolute` and `display: block`. These are the same for every child, so `Placement` keeps only the four computed numbers.
- CSS pixel values are browser floating point; the model uses exact `real` arithmetic.
- `Settings.Valid`: a column count of 0 makes the JavaScript box width `Infinity` or `NaN`. Every geometry member requires `cols > 0`.
- `hBox ? hBox : ...` uses JavaScript truthiness. It is modelled as `hBox != 0`; a `NaN` `hBox` is not modelled.
- Data attributes are `nat`s. Non-numeric attributes, which jQuery would leave as strings so that `+` concatenates, are not modelled. Zero spans are allowed, as the code does not reject them.
- `Geometry.Place`: a zero span gives a negative width or height (`-vs` or `-hs`). The model keeps that computed value. jQuery's `.css()` setter does not apply a negative width or height; depending on the version it clamps the value to 0 or ignores it. The style the browser ends up with is not modelled.
- The plugin's receiver is a jQuery collection, and the model treats it as a single container. `this.width()` and `this.css('position')` read only the collection's first element (lines 59, 115 and 119). `$(s.selector, this)` collects children under every element (line 61). `this.css('position', 'relative')` and `this.height(...)` write to every element (lines 120 and 132). A collection of several grid containers is not modelled.
- The `document &&` test in `getViewportWidth` is not modelled: the document is always present. The second `getViewportWidth()` call in `redraw` (line 92) is assumed to return the same value as the first one (line 82). Lines 84-90 run between the two calls and write the children's CSS; the model assumes those writes do not change the viewport width, for example by adding or removing a scroll bar.
- The container's width (`this.width()`) is an input. In `Redraw` it is the width of the container record passed in, at the time of the call.

## Findings

| source | as written | input that shows it | evidently intended | confidence | as-written member | corrected member |
|---|---|---|---|---|---|---|
| lightgrid.js:82-93 | `redraw` recomputes the box and re-places every child, but never re-sets the container height that setup derived from the old box (line 132) | one column, zero spacing, aspectRatio 1, hBox 0, one child (rows 1, cols 1, x 0, y 0); set up at container width 100 and viewport 120, then redraw at container width 200 and viewport 220: the child is 200 tall, the container stays 100 | a pass that re-places the children also sets the container height to `numRows * (boxHeight + hs)`, as setup does, so children stay inside the container | medium, not executed | `Lightgrid.RedrawLeavesStaleHeight` | `Lightgrid.RedrawWithHeight` |

`Lightgrid.Redraw` stays the faithful model of the code. `Lightgrid.RedrawWithHeightKeepsChildrenInside` proves that the corrected version keeps the containment invariant that `Lightgrid.SetupChildrenInside` establishes.
