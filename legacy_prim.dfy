/**
 * The older theme engine of prim.tsx: the same fragment set, except that each
 * border category nests its colours under `color` and its widths under
 * `width`, `font` is a fixed literal set, `text` nests its colours under
 * `color`, and `rounded` expands the radii derived from the size scale.
 */
module LegacyPrim {
  import opened Tokens
  import opened Expander
  import opened Categories
  import opened Gate
  import opened FragmentSet

  /** The token options of the older `configurePrim`: one size scale, and radii derived from it. */
  datatype LegacyConfig = LegacyConfig(
    screenSizes: map<string, string>,
    sizes: Table,
    borderRadii: Table -> Table)

  /** One border category: `{color: <colour fragments>, width: <width fragments>}`. */
  function BorderCategory(sheet: Sheet, colors: Table, sizes: Table, attributes: (string, string)): map<string, Entry>
  {
    map["color" := Group(ForAttribute(sheet, colors, attributes.0)),
        "width" := Group(ForAttribute(sheet, sizes, attributes.1))]
  }

  function BorderCategories(sheet: Sheet, colors: Table, sizes: Table): map<string, Entry>
  {
    map c | c in BorderAttributes :: Group(BorderCategory(sheet, colors, sizes, BorderAttributes[c]))
  }

  /** `text`: the colour fragments nested under `color`, then the literal text styles. */
  function TextCategory(sheet: Sheet, colors: Table): map<string, Entry>
  {
    map["color" := Group(ForAttribute(sheet, colors, "color"))] + SS(sheet, TextStyles)
  }

  /** `primStyles(colors, ss)` of prim.tsx. */
  function PrimStyles(sizes: Table, radii: Table, colors: Table, sheet: Sheet): map<string, Entry>
  {
    Parts(
      LayoutCategories(sheet),
      BorderCategories(sheet, colors, sizes),
      RelativeCategories(sheet, sizes),
      TrailingAtoms(sheet),
      Palette(colors),
      Group(ForAttribute(sheet, colors, "backgroundColor")),
      Group(SS(sheet, FontStyles)),
      Group(TextCategory(sheet, colors)),
      Group(ForAttribute(sheet, radii, "borderRadius")))
  }

  /** The set `primStyles` builds under a configuration: its size scale and the radii `borderRadii` derives from it. */
  function ConfiguredStyles(config: LegacyConfig, colors: Table, sheet: Sheet): map<string, Entry>
  {
    PrimStyles(config.sizes, config.borderRadii(config.sizes), colors, sheet)
  }

  /** `primTheme(currentMode, currentVariant, colors)` of prim.tsx. */
  function PrimTheme(config: LegacyConfig, mode: ColorMode, current: string, colors: Table): Theme
  {
    Assemble(mode, current, config.screenSizes, ConfiguredStyles(config, colors, Create), ConfiguredStyles(config, colors, Disabled))
  }

  // ---------------------------------------------------------------------------
  // Shape of the fragment set
  // ---------------------------------------------------------------------------

  /** The set is the spread of its parts in source order. */
  lemma SpreadOrder(sizes: Table, radii: Table, colors: Table, sheet: Sheet)
    ensures PrimStyles(sizes, radii, colors, sheet) == Parts(LayoutCategories(sheet), BorderCategories(sheet, colors, sizes),
      RelativeCategories(sheet, sizes), TrailingAtoms(sheet),
      Palette(colors), Group(ForAttribute(sheet, colors, "backgroundColor")),
      Group(SS(sheet, FontStyles)), Group(TextCategory(sheet, colors)),
      Group(ForAttribute(sheet, radii, "borderRadius")))
  {
  }

  lemma BorderCategoriesKeys(sheet: Sheet, colors: Table, sizes: Table)
    ensures BorderCategories(sheet, colors, sizes).Keys == BorderKeys
  {
    BorderKeysAre();
  }

  /** The four category families of the set have their fixed key sets. */
  lemma Shape(sizes: Table, radii: Table, colors: Table, sheet: Sheet)
    ensures Families(LayoutCategories(sheet), BorderCategories(sheet, colors, sizes),
      RelativeCategories(sheet, sizes), TrailingAtoms(sheet))
  {
    LayoutKeysAre(sheet);
    BorderCategoriesKeys(sheet, colors, sizes);
    RelativeCategoriesKeys(sheet, sizes);
    AtomKeysAre(sheet);
  }

  /** The border family shares no key with the parts spread after it. */
  lemma BorderPartApart(sheet: Sheet, colors: Table, sizes: Table)
    ensures "font" !in BorderCategories(sheet, colors, sizes) && "text" !in BorderCategories(sheet, colors, sizes)
    ensures "rounded" !in BorderCategories(sheet, colors, sizes)
    ensures BorderCategories(sheet, colors, sizes).Keys !! RelativeCategories(sheet, sizes).Keys
    ensures BorderCategories(sheet, colors, sizes).Keys !! TrailingAtoms(sheet).Keys
  {
    BorderCategoriesKeys(sheet, colors, sizes);
    RelativeCategoriesKeys(sheet, sizes);
    AtomKeysAre(sheet);
    BorderRelativeDisjoint();
    BorderFamilyApart();
  }

  /** The relative-size family shares no key with the parts spread after it. */
  lemma RelativePartApart(sheet: Sheet, sizes: Table)
    ensures "rounded" !in RelativeCategories(sheet, sizes)
    ensures RelativeCategories(sheet, sizes).Keys !! TrailingAtoms(sheet).Keys
  {
    RelativeCategoriesKeys(sheet, sizes);
    AtomKeysAre(sheet);
    RelativeAtomsDisjoint();
    RelativeFamilyApart();
  }

  /** The top-level keys are those of the newer engine, whatever the tokens and the constructor. */
  lemma StyleKeysFixed(sizes: Table, radii: Table, colors: Table, sheet: Sheet)
    ensures PrimStyles(sizes, radii, colors, sheet).Keys == StyleKeys
  {
    Shape(sizes, radii, colors, sheet);
    SpreadOrder(sizes, radii, colors, sheet);
    PartsKeys(LayoutCategories(sheet), BorderCategories(sheet, colors, sizes),
      RelativeCategories(sheet, sizes), TrailingAtoms(sheet),
      Palette(colors), Group(ForAttribute(sheet, colors, "backgroundColor")),
      Group(SS(sheet, FontStyles)), Group(TextCategory(sheet, colors)),
      Group(ForAttribute(sheet, radii, "borderRadius")));
  }

  /** Each border category of the set is the nested colour and width maps for its two attributes. */
  lemma BordersInPlace(sizes: Table, radii: Table, colors: Table, sheet: Sheet)
    ensures forall c :: c in BorderAttributes ==>
      c in PrimStyles(sizes, radii, colors, sheet) &&
      PrimStyles(sizes, radii, colors, sheet)[c] == Group(BorderCategory(sheet, colors, sizes, BorderAttributes[c]))
  {
    BorderFamilyInPlace(sizes, radii, colors, sheet);
    BorderCategoriesAt(sheet, colors, sizes);
  }

  lemma BorderFamilyInPlace(sizes: Table, radii: Table, colors: Table, sheet: Sheet)
    ensures forall c :: c in BorderCategories(sheet, colors, sizes) ==>
      c in PrimStyles(sizes, radii, colors, sheet) &&
      PrimStyles(sizes, radii, colors, sheet)[c] == BorderCategories(sheet, colors, sizes)[c]
  {
    BorderFamilyInParts(sizes, radii, colors, sheet);
    SpreadOrder(sizes, radii, colors, sheet);
  }

  lemma BorderFamilyInParts(sizes: Table, radii: Table, colors: Table, sheet: Sheet)
    ensures forall c :: c in BorderCategories(sheet, colors, sizes) ==>
      c in Parts(LayoutCategories(sheet), BorderCategories(sheet, colors, sizes),
      RelativeCategories(sheet, sizes), TrailingAtoms(sheet),
      Palette(colors), Group(ForAttribute(sheet, colors, "backgroundColor")),
      Group(SS(sheet, FontStyles)), Group(TextCategory(sheet, colors)),
      Group(ForAttribute(sheet, radii, "borderRadius"))) &&
      Parts(LayoutCategories(sheet), BorderCategories(sheet, colors, sizes),
      RelativeCategories(sheet, sizes), TrailingAtoms(sheet),
      Palette(colors), Group(ForAttribute(sheet, colors, "backgroundColor")),
      Group(SS(sheet, FontStyles)), Group(TextCategory(sheet, colors)),
      Group(ForAttribute(sheet, radii, "borderRadius")))[c] == BorderCategories(sheet, colors, sizes)[c]
  {
    BorderPartApart(sheet, colors, sizes);
    PartsBorders(LayoutCategories(sheet), BorderCategories(sheet, colors, sizes),
      RelativeCategories(sheet, sizes), TrailingAtoms(sheet),
      Palette(colors), Group(ForAttribute(sheet, colors, "backgroundColor")),
      Group(SS(sheet, FontStyles)), Group(TextCategory(sheet, colors)),
      Group(ForAttribute(sheet, radii, "borderRadius")));
  }

  lemma BorderCategoriesAt(sheet: Sheet, colors: Table, sizes: Table)
    ensures forall c :: c in BorderAttributes ==>
      c in BorderCategories(sheet, colors, sizes) &&
      BorderCategories(sheet, colors, sizes)[c] == Group(BorderCategory(sheet, colors, sizes, BorderAttributes[c]))
  {
  }


  /**
   * Colours and widths live in separate sub-maps, so a name that is both a
   * colour and a size keeps both fragments.
   */
  lemma BorderColorsAndWidthsApart(colors: Table, sizes: Table, attributes: (string, string))
    ensures BorderCategory(Create, colors, sizes, attributes).Keys == {"color", "width"}
    ensures var color := BorderCategory(Create, colors, sizes, attributes)["color"];
      color.Group? && color.members.Keys == colors.Keys &&
      forall name :: name in colors ==> color.members[name] == Frag(Some(map[attributes.0 := colors[name]]))
    ensures var width := BorderCategory(Create, colors, sizes, attributes)["width"];
      width.Group? && width.members.Keys == sizes.Keys &&
      forall name :: name in sizes ==> width.members[name] == Frag(Some(map[attributes.1 := sizes[name]]))
  {
  }

  /** `font` is the fixed literal set, whatever the tokens. */
  lemma FontIsFixed(sizes: Table, radii: Table, colors: Table, sheet: Sheet)
    ensures "font" in PrimStyles(sizes, radii, colors, sheet)
    ensures PrimStyles(sizes, radii, colors, sheet)["font"] == Group(SS(sheet, FontStyles))
  {
    Shape(sizes, radii, colors, sheet);
    SpreadOrder(sizes, radii, colors, sheet);
    PartsFont(LayoutCategories(sheet), BorderCategories(sheet, colors, sizes),
      RelativeCategories(sheet, sizes), TrailingAtoms(sheet),
      Palette(colors), Group(ForAttribute(sheet, colors, "backgroundColor")),
      Group(SS(sheet, FontStyles)), Group(TextCategory(sheet, colors)),
      Group(ForAttribute(sheet, radii, "borderRadius")));
  }

  lemma FontKeys()
    ensures FontStyles.Keys == {"medium", "semiBold", "bold", "italic"}
  {
  }

  /** The `text` entry of the set is the nested colour map beside the literal text styles. */
  lemma TextInPlace(sizes: Table, radii: Table, colors: Table, sheet: Sheet)
    ensures "text" in PrimStyles(sizes, radii, colors, sheet)
    ensures PrimStyles(sizes, radii, colors, sheet)["text"] == Group(TextCategory(sheet, colors))
  {
    Shape(sizes, radii, colors, sheet);
    SpreadOrder(sizes, radii, colors, sheet);
    PartsText(LayoutCategories(sheet), BorderCategories(sheet, colors, sizes),
      RelativeCategories(sheet, sizes), TrailingAtoms(sheet),
      Palette(colors), Group(ForAttribute(sheet, colors, "backgroundColor")),
      Group(SS(sheet, FontStyles)), Group(TextCategory(sheet, colors)),
      Group(ForAttribute(sheet, radii, "borderRadius")));
  }

  lemma ColorIsNoTextStyle()
    ensures "color" !in TextStyles
  {
  }

  /**
   * `text` holds `color` and the literal names; the colours sit one level
   * down, so no colour name can collide with a literal.
   */
  lemma TextNested(colors: Table)
    ensures TextCategory(Create, colors).Keys == {"color"} + TextKeys
    ensures TextCategory(Create, colors)["color"] == Group(ForAttribute(Create, colors, "color"))
    ensures forall name :: name in TextStyles ==> TextCategory(Create, colors)[name] == Frag(Some(TextStyles[name]))
  {
    TextKeysAre();
    ColorIsNoTextStyle();
  }

  /** `rounded` expands the radii table with attribute `borderRadius`. */
  lemma RoundedFromRadii(sizes: Table, radii: Table, colors: Table, sheet: Sheet)
    ensures "rounded" in PrimStyles(sizes, radii, colors, sheet)
    ensures PrimStyles(sizes, radii, colors, sheet)["rounded"]
         == Group(ForAttribute(sheet, radii, "borderRadius"))
  {
    Shape(sizes, radii, colors, sheet);
    SpreadOrder(sizes, radii, colors, sheet);
    PartsRounded(LayoutCategories(sheet), BorderCategories(sheet, colors, sizes),
      RelativeCategories(sheet, sizes), TrailingAtoms(sheet),
      Palette(colors), Group(ForAttribute(sheet, colors, "backgroundColor")),
      Group(SS(sheet, FontStyles)), Group(TextCategory(sheet, colors)),
      Group(ForAttribute(sheet, radii, "borderRadius")));
  }

  /** Each relative-size category of the set is the helper run for its attribute over the size scale. */
  lemma RelativeInPlace(sizes: Table, radii: Table, colors: Table, sheet: Sheet)
    ensures forall c :: c in RelativeAttributes ==>
      c in PrimStyles(sizes, radii, colors, sheet) &&
      PrimStyles(sizes, radii, colors, sheet)[c] == Group(WithRelativeSizes(sheet, sizes, RelativeAttributes[c]))
  {
    RelativeFamilyInPlace(sizes, radii, colors, sheet);
    RelativeCategoriesAt(sheet, sizes);
  }

  lemma RelativeFamilyInPlace(sizes: Table, radii: Table, colors: Table, sheet: Sheet)
    ensures forall c :: c in RelativeCategories(sheet, sizes) ==>
      c in PrimStyles(sizes, radii, colors, sheet) &&
      PrimStyles(sizes, radii, colors, sheet)[c] == RelativeCategories(sheet, sizes)[c]
  {
    RelativeFamilyInParts(sizes, radii, colors, sheet);
    SpreadOrder(sizes, radii, colors, sheet);
  }

  lemma RelativeFamilyInParts(sizes: Table, radii: Table, colors: Table, sheet: Sheet)
    ensures forall c :: c in RelativeCategories(sheet, sizes) ==>
      c in Parts(LayoutCategories(sheet), BorderCategories(sheet, colors, sizes),
      RelativeCategories(sheet, sizes), TrailingAtoms(sheet),
      Palette(colors), Group(ForAttribute(sheet, colors, "backgroundColor")),
      Group(SS(sheet, FontStyles)), Group(TextCategory(sheet, colors)),
      Group(ForAttribute(sheet, radii, "borderRadius"))) &&
      Parts(LayoutCategories(sheet), BorderCategories(sheet, colors, sizes),
      RelativeCategories(sheet, sizes), TrailingAtoms(sheet),
      Palette(colors), Group(ForAttribute(sheet, colors, "backgroundColor")),
      Group(SS(sheet, FontStyles)), Group(TextCategory(sheet, colors)),
      Group(ForAttribute(sheet, radii, "borderRadius")))[c] == RelativeCategories(sheet, sizes)[c]
  {
    RelativePartApart(sheet, sizes);
    PartsRelative(LayoutCategories(sheet), BorderCategories(sheet, colors, sizes),
      RelativeCategories(sheet, sizes), TrailingAtoms(sheet),
      Palette(colors), Group(ForAttribute(sheet, colors, "backgroundColor")),
      Group(SS(sheet, FontStyles)), Group(TextCategory(sheet, colors)),
      Group(ForAttribute(sheet, radii, "borderRadius")));
  }

  /**
   * Every relative-size category holds every size name and `full` = '100%',
   * `half` = '50%', which win over size names `full`/`half`.
   */
  lemma RelativeCategoryContents(sizes: Table, radii: Table, colors: Table, c: string)
    requires c in RelativeAttributes
    ensures c in PrimStyles(sizes, radii, colors, Create) && PrimStyles(sizes, radii, colors, Create)[c].Group?
    ensures var m := PrimStyles(sizes, radii, colors, Create)[c].members;
      && m.Keys == sizes.Keys + {"full", "half"}
      && m["full"] == Frag(Some(map[RelativeAttributes[c] := Str("100%")]))
      && m["half"] == Frag(Some(map[RelativeAttributes[c] := Str("50%")]))
      && forall name :: name in sizes && name != "full" && name != "half" ==>
           m[name] == Frag(Some(map[RelativeAttributes[c] := sizes[name]]))
  {
    RelativeInPlace(sizes, radii, colors, Create);
    RelativeSizesContents(sizes, RelativeAttributes[c]);
  }

  // ---------------------------------------------------------------------------
  // The inert run and the theme
  // ---------------------------------------------------------------------------

  /** A nested border category, erased, is the same category built with the disabled constructor. */
  lemma BorderCategoryInert(colors: Table, sizes: Table, attributes: (string, string))
    ensures Inert(Group(BorderCategory(Create, colors, sizes, attributes)))
         == Group(BorderCategory(Disabled, colors, sizes, attributes))
  {
    var color, width := ForAttribute(Create, colors, attributes.0), ForAttribute(Create, sizes, attributes.1);
    DisabledIsInertCreate(Fragments(colors, attributes.0));
    DisabledIsInertCreate(Fragments(sizes, attributes.1));
    assert Inert(Group(color)) == Group(InertAll(color));
    assert Inert(Group(width)) == Group(InertAll(width));
    assert InertAll(BorderCategory(Create, colors, sizes, attributes)) == map["color" := Inert(Group(color)), "width" := Inert(Group(width))];
    assert Inert(Group(BorderCategory(Create, colors, sizes, attributes))) == Group(InertAll(BorderCategory(Create, colors, sizes, attributes)));
  }

  lemma BordersInert(colors: Table, sizes: Table)
    ensures InertAll(BorderCategories(Create, colors, sizes)) == BorderCategories(Disabled, colors, sizes)
  {
    forall c | c in BorderAttributes
      ensures Inert(Group(BorderCategory(Create, colors, sizes, BorderAttributes[c])))
           == Group(BorderCategory(Disabled, colors, sizes, BorderAttributes[c]))
    {
      BorderCategoryInert(colors, sizes, BorderAttributes[c]);
    }
  }

  lemma TextInert(colors: Table)
    ensures Inert(Group(TextCategory(Create, colors))) == Group(TextCategory(Disabled, colors))
  {
    InertUnion(map["color" := Group(ForAttribute(Create, colors, "color"))], SS(Create, TextStyles));
    TextColorInert(colors);
    DisabledIsInertCreate(TextStyles);
    assert Inert(Group(TextCategory(Create, colors))) == Group(InertAll(TextCategory(Create, colors)));
  }

  lemma TextColorInert(colors: Table)
    ensures InertAll(map["color" := Group(ForAttribute(Create, colors, "color"))])
         == map["color" := Group(ForAttribute(Disabled, colors, "color"))]
  {
    var color := ForAttribute(Create, colors, "color");
    DisabledIsInertCreate(Fragments(colors, "color"));
    assert Inert(Group(color)) == Group(InertAll(color));
  }

  /** The set built with `disabledStyleSheet` is the live set with every fragment erased. */
  lemma InertIsErasedLive(sizes: Table, radii: Table, colors: Table)
    ensures PrimStyles(sizes, radii, colors, Disabled) == InertAll(PrimStyles(sizes, radii, colors, Create))
  {
    PartsInert(LayoutCategories(Create), BorderCategories(Create, colors, sizes),
      RelativeCategories(Create, sizes), TrailingAtoms(Create),
      Palette(colors), Group(ForAttribute(Create, colors, "backgroundColor")),
      Group(SS(Create, FontStyles)), Group(TextCategory(Create, colors)),
      Group(ForAttribute(Create, radii, "borderRadius")));
    LayoutInert();
    BordersInert(colors, sizes);
    RelativeInert(sizes);
    AtomsInert();
    TextInert(colors);
    DisabledIsInertCreate(Fragments(colors, "backgroundColor"));
    DisabledIsInertCreate(FontStyles);
    DisabledIsInertCreate(Fragments(radii, "borderRadius"));
  }

  lemma InsetInPlace(sizes: Table, radii: Table, colors: Table, sheet: Sheet)
    ensures "inset" in PrimStyles(sizes, radii, colors, sheet)
    ensures PrimStyles(sizes, radii, colors, sheet)["inset"] == Group(SS(sheet, InsetStyles))
  {
    InsetInAtoms(sheet);
    SpreadOrder(sizes, radii, colors, sheet);
    PartsAtoms(LayoutCategories(sheet), BorderCategories(sheet, colors, sizes),
      RelativeCategories(sheet, sizes), TrailingAtoms(sheet),
      Palette(colors), Group(ForAttribute(sheet, colors, "backgroundColor")),
      Group(SS(sheet, FontStyles)), Group(TextCategory(sheet, colors)),
      Group(ForAttribute(sheet, radii, "borderRadius")));
  }

  /** The same `inset` shorthands as the newer engine: `right0`, `bottom0` and `left0` set `top`. */
  lemma InsetAsWritten(sizes: Table, radii: Table, colors: Table)
    ensures "inset" in PrimStyles(sizes, radii, colors, Create) && PrimStyles(sizes, radii, colors, Create)["inset"].Group?
    ensures var inset := PrimStyles(sizes, radii, colors, Create)["inset"].members;
      && "top0" in inset && "right0" in inset && "bottom0" in inset && "left0" in inset
      && inset["right0"] == Frag(Some(map["top" := Num(0.0)]))
      && inset["bottom0"] == Frag(Some(map["top" := Num(0.0)]))
      && inset["left0"] == Frag(Some(map["top" := Num(0.0)]))
      && inset["right0"] == inset["top0"]
  {
    InsetInPlace(sizes, radii, colors, Create);
    InsetEdgesAsWritten();
  }

  lemma LiveDiffersFromInert(sizes: Table, radii: Table, colors: Table)
    ensures PrimStyles(sizes, radii, colors, Create) != PrimStyles(sizes, radii, colors, Disabled)
  {
    InsetInPlace(sizes, radii, colors, Create);
    InsetInPlace(sizes, radii, colors, Disabled);
    assert PrimStyles(sizes, radii, colors, Create)["inset"].members["zero"].style.Some?;
    assert PrimStyles(sizes, radii, colors, Disabled)["inset"].members["zero"].style.None?;
  }

  /** Each breakpoint key holds the live set if it is the current screen size, the erased set otherwise. */
  lemma ThemeBreakpoints(config: LegacyConfig, mode: ColorMode, current: string, colors: Table)
    ensures forall k :: k in config.screenSizes ==>
      k in PrimTheme(config, mode, current, colors) &&
      PrimTheme(config, mode, current, colors)[k]
        == Group(if k == current then ConfiguredStyles(config, colors, Create) else InertAll(ConfiguredStyles(config, colors, Create)))
  {
    InertIsErasedLive(config.sizes, config.borderRadii(config.sizes), colors);
  }

  /** Exactly the current screen size is live when it is a breakpoint key; otherwise none is. */
  lemma ThemeOneLive(config: LegacyConfig, mode: ColorMode, current: string, colors: Table)
    ensures LiveBreakpoints(PrimTheme(config, mode, current, colors), config.screenSizes, ConfiguredStyles(config, colors, Create))
         == if current in config.screenSizes then {current} else {}
  {
    LiveDiffersFromInert(config.sizes, config.borderRadii(config.sizes), colors);
    ExactlyOneLive(mode, current, config.screenSizes, ConfiguredStyles(config, colors, Create), ConfiguredStyles(config, colors, Disabled));
  }

  /** Outside the breakpoint keys, every category at the top level is the live one. */
  lemma ThemeTopLevelIsLive(config: LegacyConfig, mode: ColorMode, current: string, colors: Table)
    ensures forall k :: k in ConfiguredStyles(config, colors, Create) && k !in config.screenSizes ==>
      k in PrimTheme(config, mode, current, colors) &&
      PrimTheme(config, mode, current, colors)[k] == ConfiguredStyles(config, colors, Create)[k]
  {
  }

  /**
   * Unless a breakpoint key shadows it, the theme's `rounded` expands the
   * radii `borderRadii` derives from the configured size scale.
   */
  lemma ThemeRounded(config: LegacyConfig, mode: ColorMode, current: string, colors: Table)
    requires "rounded" !in config.screenSizes
    ensures "rounded" in PrimTheme(config, mode, current, colors)
    ensures PrimTheme(config, mode, current, colors)["rounded"]
         == Group(ForAttribute(Create, config.borderRadii(config.sizes), "borderRadius"))
  {
    RoundedFromRadii(config.sizes, config.borderRadii(config.sizes), colors, Create);
  }
}
