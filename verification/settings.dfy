/**
  The plugin's settings: the options a caller passes to `lightgrid(options)`
  and the resolved configuration obtained by filling every omitted option
  with its default (lightgrid.js lines 45-53).
 */
module Settings {
  import opened Wrappers

  /** The resolved settings object. `vSpacing` is the spacing on each side of
      a vertical separator line, so it widens the gap BETWEEN COLUMNS;
      `hSpacing` likewise widens the gap between rows. `hBox` is a fixed box
      height, where 0 means "derive the height from `aspectRatio`". */
  datatype GridConfig = GridConfig(
    cols: nat,
    hSpacing: real,
    vSpacing: real,
    selector: string,
    aspectRatio: real,
    hBox: real,
    fluid: bool)

  /** The options a caller may pass; every field may be omitted. */
  datatype Options = Options(
    cols: Option<nat>,
    hSpacing: Option<real>,
    vSpacing: Option<real>,
    selector: Option<string>,
    aspectRatio: Option<real>,
    hBox: Option<real>,
    fluid: Option<bool>)

  /** Calling the plugin with no options at all. */
  const NoOptions: Options := Options(None, None, None, None, None, None, None)

  /** The default settings. */
  const Defaults: GridConfig := GridConfig(3, 10.0, 10.0, "div", 1.0, 0.0, false)

  /** The column count the geometry needs: the box width divides by it. */
  predicate Valid(cfg: GridConfig) {
    cfg.cols > 0
  }

  /** Merges the caller's options over the defaults: a given option wins,
      an omitted one takes its default. */
  function WithDefaults(o: Options): (cfg: GridConfig)
    ensures o.cols.Some? ==> cfg.cols == o.cols.value
    ensures o.cols.None? ==> cfg.cols == 3
    ensures o.hSpacing.Some? ==> cfg.hSpacing == o.hSpacing.value
    ensures o.hSpacing.None? ==> cfg.hSpacing == 10.0
    ensures o.vSpacing.Some? ==> cfg.vSpacing == o.vSpacing.value
    ensures o.vSpacing.None? ==> cfg.vSpacing == 10.0
    ensures o.selector.Some? ==> cfg.selector == o.selector.value
    ensures o.selector.None? ==> cfg.selector == "div"
    ensures o.aspectRatio.Some? ==> cfg.aspectRatio == o.aspectRatio.value
    ensures o.aspectRatio.None? ==> cfg.aspectRatio == 1.0
    ensures o.hBox.Some? ==> cfg.hBox == o.hBox.value
    ensures o.hBox.None? ==> cfg.hBox == 0.0
    ensures o.fluid.Some? ==> cfg.fluid == o.fluid.value
    ensures o.fluid.None? ==> !cfg.fluid
  {
    GridConfig(
      o.cols.GetOr(Defaults.cols),
      o.hSpacing.GetOr(Defaults.hSpacing),
      o.vSpacing.GetOr(Defaults.vSpacing),
      o.selector.GetOr(Defaults.selector),
      o.aspectRatio.GetOr(Defaults.aspectRatio),
      o.hBox.GetOr(Defaults.hBox),
      o.fluid.GetOr(Defaults.fluid))
  }

  /** With no options the settings are exactly the defaults, and those are
      usable: three columns. */
  lemma NoOptionsGiveDefaults()
    ensures WithDefaults(NoOptions) == Defaults
    ensures Valid(WithDefaults(NoOptions))
  {
  }

  /** The merged settings are usable exactly when the caller does not ask
      for zero columns. */
  lemma ValidUnlessZeroColumns(o: Options)
    ensures Valid(WithDefaults(o)) <==> o.cols != Some(0)
  {
  }
}
