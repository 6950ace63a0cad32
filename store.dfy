/**
 * The theme cache of `PrimProvider`, the same in src/configurePrim.tsx and
 * prim.tsx: the theme is rebuilt only when the dependency list `[mode, colors,
 * screenSize]` differs from the previous render's, compared element by
 * element with `===`.
 */
module Store {
  import opened Tokens
  import opened Gate

  /** The appearance mode `useDarkMode` derives from the platform colour scheme (`null` as `None`). */
  function ModeOf(scheme: Option<string>): (mode: ColorMode)
    ensures mode == Dark <==> scheme == Some("dark")
  {
    if scheme == Some("dark") then Dark else Light
  }

  /** A colour palette object of the configuration; the cache compares palettes by reference. */
  class Palette {
    const table: Table

    constructor(table: Table)
      ensures this.table == table
    {
      this.table := table;
    }
  }

  /** The dependency list of the cache. */
  datatype Deps = Deps(mode: ColorMode, colors: Palette, screenSize: string)

  /**
   * One mounted provider: the configuration's two palettes, the theme function
   * of the engine it belongs to, and the cache `useMemoOne` keeps between
   * renders.
   */
  class PrimProvider {
    const light: Palette
    const dark: Palette
    const primTheme: (ColorMode, string, Table) -> Theme
    var deps: Option<Deps>
    var cached: Theme

    /** A cached theme is the theme of the dependencies it was computed for. */
    ghost predicate Valid()
      reads this
    {
      deps.Some? ==> cached == primTheme(deps.value.mode, deps.value.screenSize, deps.value.colors.table)
    }

    /** `config.colors[mode]`. */
    function ColorsFor(mode: ColorMode): (p: Palette)
      ensures mode == Dark ==> p == dark
      ensures mode == Light ==> p == light
    {
      if mode == Dark then dark else light
    }

    constructor(light: Palette, dark: Palette, primTheme: (ColorMode, string, Table) -> Theme)
      ensures this.light == light && this.dark == dark && this.primTheme == primTheme
      ensures deps == None
      ensures Valid()
    {
      this.light := light;
      this.dark := dark;
      this.primTheme := primTheme;
      deps := None;
      cached := map[];
    }

    /**
     * One render with the hooks' current mode and screen size. The theme
     * handed to the context is always the theme of the current inputs; it is
     * rebuilt exactly when a dependency changed, and otherwise the previous
     * theme object is handed on unchanged.
     */
    method Render(mode: ColorMode, screenSize: string) returns (theme: Theme, rebuilt: bool)
      requires Valid()
      modifies this
      ensures Valid()
      ensures theme == primTheme(mode, screenSize, ColorsFor(mode).table)
      ensures rebuilt <==> old(deps) != Some(Deps(mode, ColorsFor(mode), screenSize))
      ensures !rebuilt ==> theme == old(cached)
      ensures deps == Some(Deps(mode, ColorsFor(mode), screenSize)) && cached == theme
    {
      var colors := ColorsFor(mode);
      var next := Deps(mode, colors, screenSize);
      if deps == Some(next) {
        rebuilt := false;
      } else {
        cached := primTheme(mode, screenSize, colors.table);
        deps := Some(next);
        rebuilt := true;
      }
      theme := cached;
    }
  }
}
