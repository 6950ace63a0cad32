/**
 * The theme builder (`primStyles`) and theme function (`primTheme`) of
 * src/configurePrim.tsx.
 */
module ConfigurePrim {
  import opened Tokens
  import opened Expander
  import opened Categories
  import opened Gate
  import opened FragmentSet
  import opened ScreenSizes

  /** The token tables `configurePrim` is given; the colour palettes live in the store. */
  datatype Config = Config(
    screenSizes: map<string, string>,
    spacing: Table,
    borderRadius: Table,
    fontSize: Table,
    fontWeight: Table)

  /** One border category: the colour fragments, then the width fragments spread over them. */
  function BorderCategory(sheet: Sheet, colors: Table, spacing: Table, attributes: (string, string)): map<string, Entry>
  {
    ForAttribute(sheet, colors, attributes.0) + ForAttribute(sheet, spacing, attributes.1)
  }

  /** `border`, `borderTop`, `borderBottom`, `borderRight` and `borderLeft`. */
  function BorderCategories(sheet: Sheet, colors: Table, spacing: Table): map<string, Entry>
  {
    map c | c in BorderAttributes :: Group(BorderCategory(sheet, colors, spacing, BorderAttributes[c]))
  }

  /** The `text` category: font sizes, then colours, then the literal text styles. */
  function TextCategory(sheet: Sheet, colors: Table, fontSize: Table): map<string, Entry>
  {
    ForAttribute(sheet, fontSize, "fontSize") + ForAttribute(sheet, colors, "color") + SS(sheet, TextStyles)
  }

  /** `primStyles(colors, ss)`. */
  function PrimStyles(config: Config, colors: Table, sheet: Sheet): map<string, Entry>
  {
    Parts(
      LayoutCategories(sheet),
      BorderCategories(sheet, colors, config.spacing),
      RelativeCategories(sheet, config.spacing),
      TrailingAtoms(sheet),
      Palette(colors),
      Group(ForAttribute(sheet, colors, "backgroundColor")),
      Group(ForAttribute(sheet, config.fontWeight, "fontWeight")),
      Group(TextCategory(sheet, colors, config.fontSize)),
      Group(ForAttribute(sheet, config.borderRadius, "borderRadius")))
  }

  /** `primTheme(currentMode, currentVariant, colors)`. */
  function PrimTheme(config: Config, mode: ColorMode, current: string, colors: Table): Theme
  {
    Assemble(mode, current, config.screenSizes, PrimStyles(config, colors, Create), PrimStyles(config, colors, Disabled))
  }

  // ---------------------------------------------------------------------------
  // Shape of the fragment set
  // ---------------------------------------------------------------------------

  /** The set is the spread of its parts in source order. */
  lemma SpreadOrder(config: Config, colors: Table, sheet: Sheet)
    ensures PrimStyles(config, colors, sheet) == Parts(LayoutCategories(sheet), BorderCategories(sheet, colors, config.spacing),
      RelativeCategories(sheet, config.spacing), TrailingAtoms(sheet),
      Palette(colors), Group(ForAttribute(sheet, colors, "backgroundColor")),
      Group(ForAttribute(sheet, config.fontWeight, "fontWeight")), Group(TextCategory(sheet, colors, config.fontSize)),
      Group(ForAttribute(sheet, config.borderRadius, "borderRadius")))
  {
  }

  lemma BorderCategoriesKeys(sheet: Sheet, colors: Table, spacing: Table)
    ensures BorderCategories(sheet, colors, spacing).Keys == BorderKeys
  {
    BorderKeysAre();
  }

  /** The four category families of the set have their fixed key sets. */
  lemma Shape(config: Config, colors: Table, sheet: Sheet)
    ensures Families(LayoutCategories(sheet), BorderCategories(sheet, colors, config.spacing),
      RelativeCategories(sheet, config.spacing), TrailingAtoms(sheet))
  {
    LayoutKeysAre(sheet);
    BorderCategoriesKeys(sheet, colors, config.spacing);
    RelativeCategoriesKeys(sheet, config.spacing);
    AtomKeysAre(sheet);
  }

  /** The border family shares no key with the parts spread after it. */
  lemma BorderPartApart(sheet: Sheet, colors: Table, spacing: Table)
    ensures "font" !in BorderCategories(sheet, colors, spacing) && "text" !in BorderCategories(sheet, colors, spacing)
    ensures "rounded" !in BorderCategories(sheet, colors, spacing)
    ensures BorderCategories(sheet, colors, spacing).Keys !! RelativeCategories(sheet, spacing).Keys
    ensures BorderCategories(sheet, colors, spacing).Keys !! TrailingAtoms(sheet).Keys
  {
    BorderCategoriesKeys(sheet, colors, spacing);
    RelativeCategoriesKeys(sheet, spacing);
    AtomKeysAre(sheet);
    BorderRelativeDisjoint();
    BorderFamilyApart();
  }

  /** The relative-size family shares no key with the parts spread after it. */
  lemma RelativePartApart(sheet: Sheet, spacing: Table)
    ensures "rounded" !in RelativeCategories(sheet, spacing)
    ensures RelativeCategories(sheet, spacing).Keys !! TrailingAtoms(sheet).Keys
  {
    RelativeCategoriesKeys(sheet, spacing);
    AtomKeysAre(sheet);
    RelativeAtomsDisjoint();
    RelativeFamilyApart();
  }

  /** The top-level keys of the fragment set do not depend on the tokens or on the constructor. */
  lemma StyleKeysFixed(config: Config, colors: Table, sheet: Sheet)
    ensures PrimStyles(config, colors, sheet).Keys == StyleKeys
  {
    Shape(config, colors, sheet);
    SpreadOrder(config, colors, sheet);
    PartsKeys(LayoutCategories(sheet), BorderCategories(sheet, colors, config.spacing),
      RelativeCategories(sheet, config.spacing), TrailingAtoms(sheet),
      Palette(colors), Group(ForAttribute(sheet, colors, "backgroundColor")),
      Group(ForAttribute(sheet, config.fontWeight, "fontWeight")), Group(TextCategory(sheet, colors, config.fontSize)),
      Group(ForAttribute(sheet, config.borderRadius, "borderRadius")));
  }

  /** `colors` holds the raw palette, whichever constructor built the set. */
  lemma ColorsIsRawPalette(config: Config, colors: Table, sheet: Sheet)
    ensures "colors" in PrimStyles(config, colors, sheet)
    ensures PrimStyles(config, colors, sheet)["colors"] == Palette(colors)
  {
    Shape(config, colors, sheet);
    SpreadOrder(config, colors, sheet);
    PartsColors(LayoutCategories(sheet), BorderCategories(sheet, colors, config.spacing),
      RelativeCategories(sheet, config.spacing), TrailingAtoms(sheet),
      Palette(colors), Group(ForAttribute(sheet, colors, "backgroundColor")),
      Group(ForAttribute(sheet, config.fontWeight, "fontWeight")), Group(TextCategory(sheet, colors, config.fontSize)),
      Group(ForAttribute(sheet, config.borderRadius, "borderRadius")));
  }

  /** Each border category of the set is the colour-then-width spread for its two attributes. */
  lemma BordersInPlace(config: Config, colors: Table, sheet: Sheet)
    ensures forall c :: c in BorderAttributes ==>
      c in PrimStyles(config, colors, sheet) &&
      PrimStyles(config, colors, sheet)[c] == Group(BorderCategory(sheet, colors, config.spacing, BorderAttributes[c]))
  {
    BorderFamilyInPlace(config, colors, sheet);
    BorderCategoriesAt(sheet, colors, config.spacing);
  }

  lemma BorderFamilyInPlace(config: Config, colors: Table, sheet: Sheet)
    ensures forall c :: c in BorderCategories(sheet, colors, config.spacing) ==>
      c in PrimStyles(config, colors, sheet) &&
      PrimStyles(config, colors, sheet)[c] == BorderCategories(sheet, colors, config.spacing)[c]
  {
    BorderPartApart(sheet, colors, config.spacing);
    SpreadOrder(config, colors, sheet);
    PartsBorders(LayoutCategories(sheet), BorderCategories(sheet, colors, config.spacing),
      RelativeCategories(sheet, config.spacing), TrailingAtoms(sheet),
      Palette(colors), Group(ForAttribute(sheet, colors, "backgroundColor")),
      Group(ForAttribute(sheet, config.fontWeight, "fontWeight")), Group(TextCategory(sheet, colors, config.fontSize)),
      Group(ForAttribute(sheet, config.borderRadius, "borderRadius")));
  }

  lemma BorderCategoriesAt(sheet: Sheet, colors: Table, spacing: Table)
    ensures forall c :: c in BorderAttributes ==>
      c in BorderCategories(sheet, colors, spacing) &&
      BorderCategories(sheet, colors, spacing)[c] == Group(BorderCategory(sheet, colors, spacing, BorderAttributes[c]))
  {
  }


  /** The `text` entry of the set is the font-size, colour, literal spread. */
  lemma TextInPlace(config: Config, colors: Table, sheet: Sheet)
    ensures "text" in PrimStyles(config, colors, sheet)
    ensures PrimStyles(config, colors, sheet)["text"] == Group(TextCategory(sheet, colors, config.fontSize))
  {
    Shape(config, colors, sheet);
    SpreadOrder(config, colors, sheet);
    PartsText(LayoutCategories(sheet), BorderCategories(sheet, colors, config.spacing),
      RelativeCategories(sheet, config.spacing), TrailingAtoms(sheet),
      Palette(colors), Group(ForAttribute(sheet, colors, "backgroundColor")),
      Group(ForAttribute(sheet, config.fontWeight, "fontWeight")), Group(TextCategory(sheet, colors, config.fontSize)),
      Group(ForAttribute(sheet, config.borderRadius, "borderRadius")));
  }

  /** The `bg` entry of the set is the background-colour expansion of the palette. */
  lemma BgInPlace(config: Config, colors: Table, sheet: Sheet)
    ensures "bg" in PrimStyles(config, colors, sheet)
    ensures PrimStyles(config, colors, sheet)["bg"] == Group(ForAttribute(sheet, colors, "backgroundColor"))
  {
    Shape(config, colors, sheet);
    SpreadOrder(config, colors, sheet);
    PartsBg(LayoutCategories(sheet), BorderCategories(sheet, colors, config.spacing),
      RelativeCategories(sheet, config.spacing), TrailingAtoms(sheet),
      Palette(colors), Group(ForAttribute(sheet, colors, "backgroundColor")),
      Group(ForAttribute(sheet, config.fontWeight, "fontWeight")), Group(TextCategory(sheet, colors, config.fontSize)),
      Group(ForAttribute(sheet, config.borderRadius, "borderRadius")));
  }

  /** Each relative-size category of the set is the helper run for its attribute over the spacing scale. */
  lemma RelativeInPlace(config: Config, colors: Table, sheet: Sheet)
    ensures forall c :: c in RelativeAttributes ==>
      c in PrimStyles(config, colors, sheet) &&
      PrimStyles(config, colors, sheet)[c] == Group(WithRelativeSizes(sheet, config.spacing, RelativeAttributes[c]))
  {
    RelativeFamilyInPlace(config, colors, sheet);
    RelativeCategoriesAt(sheet, config.spacing);
  }

  lemma RelativeFamilyInPlace(config: Config, colors: Table, sheet: Sheet)
    ensures forall c :: c in RelativeCategories(sheet, config.spacing) ==>
      c in PrimStyles(config, colors, sheet) &&
      PrimStyles(config, colors, sheet)[c] == RelativeCategories(sheet, config.spacing)[c]
  {
    RelativePartApart(sheet, config.spacing);
    SpreadOrder(config, colors, sheet);
    PartsRelative(LayoutCategories(sheet), BorderCategories(sheet, colors, config.spacing),
      RelativeCategories(sheet, config.spacing), TrailingAtoms(sheet),
      Palette(colors), Group(ForAttribute(sheet, colors, "backgroundColor")),
      Group(ForAttribute(sheet, config.fontWeight, "fontWeight")), Group(TextCategory(sheet, colors, config.fontSize)),
      Group(ForAttribute(sheet, config.borderRadius, "borderRadius")));
  }


  // ---------------------------------------------------------------------------
  // The inert run
  // ---------------------------------------------------------------------------

  lemma BordersInert(colors: Table, spacing: Table)
    ensures InertAll(BorderCategories(Create, colors, spacing)) == BorderCategories(Disabled, colors, spacing)
  {
    BordersAsFamily(Create, colors, spacing);
    BordersAsFamily(Disabled, colors, spacing);
    FamilyInert(BorderStyles(colors, spacing));
  }

  /** The fragments of every border category, before `ss` registers them. */
  function BorderStyles(colors: Table, spacing: Table): map<string, map<string, Style>>
  {
    map c | c in BorderAttributes :: Fragments(colors, BorderAttributes[c].0) + Fragments(spacing, BorderAttributes[c].1)
  }

  lemma BordersAsFamily(sheet: Sheet, colors: Table, spacing: Table)
    ensures BorderCategories(sheet, colors, spacing) == Family(sheet, BorderStyles(colors, spacing))
  {
    forall c | c in BorderAttributes
      ensures BorderCategory(sheet, colors, spacing, BorderAttributes[c])
           == SS(sheet, Fragments(colors, BorderAttributes[c].0) + Fragments(spacing, BorderAttributes[c].1))
    {
      SpreadSS(sheet, Fragments(colors, BorderAttributes[c].0), Fragments(spacing, BorderAttributes[c].1));
    }
  }

  lemma TextInert(colors: Table, fontSize: Table)
    ensures Inert(Group(TextCategory(Create, colors, fontSize))) == Group(TextCategory(Disabled, colors, fontSize))
  {
    InertUnion(ForAttribute(Create, fontSize, "fontSize") + ForAttribute(Create, colors, "color"), SS(Create, TextStyles));
    InertUnion(ForAttribute(Create, fontSize, "fontSize"), ForAttribute(Create, colors, "color"));
    DisabledIsInertCreate(Fragments(fontSize, "fontSize"));
    DisabledIsInertCreate(Fragments(colors, "color"));
    DisabledIsInertCreate(TextStyles);
  }

  /**
   * The set built with `disabledStyleSheet` is the live set with every
   * fragment erased: same keys at every level, `colors` still the raw palette.
   */
  lemma InertIsErasedLive(config: Config, colors: Table)
    ensures PrimStyles(config, colors, Disabled) == InertAll(PrimStyles(config, colors, Create))
  {
    PartsInert(LayoutCategories(Create), BorderCategories(Create, colors, config.spacing),
      RelativeCategories(Create, config.spacing), TrailingAtoms(Create),
      Palette(colors), Group(ForAttribute(Create, colors, "backgroundColor")),
      Group(ForAttribute(Create, config.fontWeight, "fontWeight")), Group(TextCategory(Create, colors, config.fontSize)),
      Group(ForAttribute(Create, config.borderRadius, "borderRadius")));
    LayoutInert();
    BordersInert(colors, config.spacing);
    RelativeInert(config.spacing);
    AtomsInert();
    TextInert(colors, config.fontSize);
    DisabledIsInertCreate(Fragments(colors, "backgroundColor"));
    DisabledIsInertCreate(Fragments(config.fontWeight, "fontWeight"));
    DisabledIsInertCreate(Fragments(config.borderRadius, "borderRadius"));
  }

  /** Hence the inert set has the live set's shape, down to every fragment key. */
  lemma InertSameShape(config: Config, colors: Table)
    ensures PrimStyles(config, colors, Disabled).Keys == PrimStyles(config, colors, Create).Keys
    ensures forall k :: k in PrimStyles(config, colors, Create) ==>
      SameShape(PrimStyles(config, colors, Create)[k], PrimStyles(config, colors, Disabled)[k])
  {
    InertIsErasedLive(config, colors);
    InertAllKeepsShape(PrimStyles(config, colors, Create));
  }

  /** `inset` is the last part spread, so it is read straight from the trailing atoms. */
  lemma InsetInPlace(config: Config, colors: Table, sheet: Sheet)
    ensures "inset" in PrimStyles(config, colors, sheet)
    ensures PrimStyles(config, colors, sheet)["inset"] == Group(SS(sheet, InsetStyles))
  {
    InsetInAtoms(sheet);
    SpreadOrder(config, colors, sheet);
    PartsAtoms(LayoutCategories(sheet), BorderCategories(sheet, colors, config.spacing),
      RelativeCategories(sheet, config.spacing), TrailingAtoms(sheet),
      Palette(colors), Group(ForAttribute(sheet, colors, "backgroundColor")),
      Group(ForAttribute(sheet, config.fontWeight, "fontWeight")), Group(TextCategory(sheet, colors, config.fontSize)),
      Group(ForAttribute(sheet, config.borderRadius, "borderRadius")));
  }

  /**
   * The `inset` edge shorthands as written: `right0`, `bottom0` and `left0`
   * each register `{top: 0}`, the same fragment as `top0`.
   */
  lemma InsetAsWritten(config: Config, colors: Table)
    ensures "inset" in PrimStyles(config, colors, Create) && PrimStyles(config, colors, Create)["inset"].Group?
    ensures var inset := PrimStyles(config, colors, Create)["inset"].members;
      && "top0" in inset && "right0" in inset && "bottom0" in inset && "left0" in inset
      && inset["right0"] == Frag(Some(map["top" := Num(0.0)]))
      && inset["bottom0"] == Frag(Some(map["top" := Num(0.0)]))
      && inset["left0"] == Frag(Some(map["top" := Num(0.0)]))
      && inset["right0"] == inset["top0"]
  {
    InsetInPlace(config, colors, Create);
    InsetEdgesAsWritten();
  }

  /** The live and the inert set are different objects, which the gate relies on. */
  lemma LiveDiffersFromInert(config: Config, colors: Table)
    ensures PrimStyles(config, colors, Create) != PrimStyles(config, colors, Disabled)
  {
    InsetInPlace(config, colors, Create);
    InsetInPlace(config, colors, Disabled);
    assert PrimStyles(config, colors, Create)["inset"].members["zero"].style.Some?;
    assert PrimStyles(config, colors, Disabled)["inset"].members["zero"].style.None?;
  }

  // ---------------------------------------------------------------------------
  // Merge order inside categories
  // ---------------------------------------------------------------------------

  /**
   * A border category holds every colour and every spacing name; a name in
   * both gets the width fragment, because the spacing fragments are spread last.
   */
  lemma BorderMergeOrder(colors: Table, spacing: Table, attributes: (string, string))
    ensures BorderCategory(Create, colors, spacing, attributes).Keys == colors.Keys + spacing.Keys
    ensures forall name :: name in spacing ==>
      BorderCategory(Create, colors, spacing, attributes)[name] == Frag(Some(map[attributes.1 := spacing[name]]))
    ensures forall name :: name in colors && name !in spacing ==>
      BorderCategory(Create, colors, spacing, attributes)[name] == Frag(Some(map[attributes.0 := colors[name]]))
  {
  }

  /**
   * `text` holds every font size, colour and literal name; a literal beats a
   * colour or size of the same name, and a colour beats a size.
   */
  lemma TextMergeOrder(colors: Table, fontSize: Table)
    ensures TextCategory(Create, colors, fontSize).Keys == fontSize.Keys + colors.Keys + TextKeys
    ensures forall name :: name in TextStyles ==> TextCategory(Create, colors, fontSize)[name] == Frag(Some(TextStyles[name]))
    ensures forall name :: name in colors && name !in TextStyles ==>
      TextCategory(Create, colors, fontSize)[name] == Frag(Some(map["color" := colors[name]]))
    ensures forall name :: name in fontSize && name !in colors && name !in TextStyles ==>
      TextCategory(Create, colors, fontSize)[name] == Frag(Some(map["fontSize" := fontSize[name]]))
  {
    TextKeysAre();
  }

  /**
   * Every relative-size category of the live set holds every spacing name and
   * `full` = '100%', `half` = '50%', which win over spacing names `full`/`half`.
   */
  lemma RelativeCategoryContents(config: Config, colors: Table, c: string)
    requires c in RelativeAttributes
    ensures c in PrimStyles(config, colors, Create) && PrimStyles(config, colors, Create)[c].Group?
    ensures var m := PrimStyles(config, colors, Create)[c].members;
      && m.Keys == config.spacing.Keys + {"full", "half"}
      && m["full"] == Frag(Some(map[RelativeAttributes[c] := Str("100%")]))
      && m["half"] == Frag(Some(map[RelativeAttributes[c] := Str("50%")]))
      && forall name :: name in config.spacing && name != "full" && name != "half" ==>
           m[name] == Frag(Some(map[RelativeAttributes[c] := config.spacing[name]]))
  {
    RelativeInPlace(config, colors, Create);
    RelativeSizesContents(config.spacing, RelativeAttributes[c]);
  }

  // ---------------------------------------------------------------------------
  // What a palette change touches
  // ---------------------------------------------------------------------------

  /** Outside `colors`, `bg`, `text` and the border family, the set does not depend on the palette. */
  lemma PaletteChangeIsLocal(config: Config, colors: Table, colors': Table, sheet: Sheet, k: string)
    requires k in StyleKeys && k !in ColorCategories
    ensures k in PrimStyles(config, colors, sheet) && k in PrimStyles(config, colors', sheet)
    ensures PrimStyles(config, colors, sheet)[k] == PrimStyles(config, colors', sheet)[k]
  {
    StyleKeysFixed(config, colors, sheet);
    StyleKeysFixed(config, colors', sheet);
    BorderCategoriesKeys(sheet, colors, config.spacing);
    BorderCategoriesKeys(sheet, colors', config.spacing);
    OutsideColorCategories(k);
    PartsOutside(LayoutCategories(sheet), BorderCategories(sheet, colors, config.spacing),
      BorderCategories(sheet, colors', config.spacing), RelativeCategories(sheet, config.spacing), TrailingAtoms(sheet),
      Palette(colors), Palette(colors'), Group(ForAttribute(sheet, colors, "backgroundColor")),
      Group(ForAttribute(sheet, colors', "backgroundColor")),
      Group(ForAttribute(sheet, config.fontWeight, "fontWeight")),
      Group(TextCategory(sheet, colors, config.fontSize)), Group(TextCategory(sheet, colors', config.fontSize)),
      Group(ForAttribute(sheet, config.borderRadius, "borderRadius")), k);
  }

  /** Inside a border category, the width entries do not depend on the palette. */
  lemma BorderWidthsIgnorePalette(colors: Table, colors': Table, spacing: Table, attributes: (string, string), name: string)
    requires name in spacing
    ensures BorderCategory(Create, colors, spacing, attributes)[name] == BorderCategory(Create, colors', spacing, attributes)[name]
  {
    BorderMergeOrder(colors, spacing, attributes);
    BorderMergeOrder(colors', spacing, attributes);
  }

  /** Inside `text`, the literal entries and the sizes no palette shadows do not depend on the palette. */
  lemma TextIgnoresPalette(colors: Table, colors': Table, fontSize: Table, name: string)
    requires name in TextStyles || (name in fontSize && name !in colors && name !in colors')
    ensures name in TextCategory(Create, colors, fontSize) && name in TextCategory(Create, colors', fontSize)
    ensures TextCategory(Create, colors, fontSize)[name] == TextCategory(Create, colors', fontSize)[name]
  {
    TextMergeOrder(colors, fontSize);
    TextMergeOrder(colors', fontSize);
  }

  /** The colour-built entries do follow the palette: `bg.<name>` is `{backgroundColor: colors[name]}`. */
  lemma BackgroundFollowsPalette(config: Config, colors: Table, name: string)
    requires name in colors
    ensures "bg" in PrimStyles(config, colors, Create) && PrimStyles(config, colors, Create)["bg"].Group?
    ensures name in PrimStyles(config, colors, Create)["bg"].members
    ensures PrimStyles(config, colors, Create)["bg"].members[name] == Frag(Some(map["backgroundColor" := colors[name]]))
  {
    BgInPlace(config, colors, Create);
  }

  // ---------------------------------------------------------------------------
  // The theme
  // ---------------------------------------------------------------------------

  /** The theme's keys: the two scalars, the fragment set's keys and every breakpoint key. */
  lemma ThemeKeys(config: Config, mode: ColorMode, current: string, colors: Table)
    ensures PrimTheme(config, mode, current, colors).Keys == {"mode", "screenSize"} + StyleKeys + config.screenSizes.Keys
  {
    StyleKeysFixed(config, colors, Create);
  }

  /**
   * Breakpoint keys are spread last: each holds the live set when it is the
   * current screen size and the erased set otherwise, even when it shares a
   * name with a top-level category.
   */
  lemma ThemeBreakpoints(config: Config, mode: ColorMode, current: string, colors: Table)
    ensures forall k :: k in config.screenSizes ==>
      k in PrimTheme(config, mode, current, colors) &&
      PrimTheme(config, mode, current, colors)[k]
        == Group(if k == current then PrimStyles(config, colors, Create) else InertAll(PrimStyles(config, colors, Create)))
  {
    InertIsErasedLive(config, colors);
  }

  /** Exactly the current screen size is live when it is a breakpoint key; otherwise none is. */
  lemma ThemeOneLive(config: Config, mode: ColorMode, current: string, colors: Table)
    ensures LiveBreakpoints(PrimTheme(config, mode, current, colors), config.screenSizes, PrimStyles(config, colors, Create))
         == if current in config.screenSizes then {current} else {}
  {
    LiveDiffersFromInert(config, colors);
    ExactlyOneLive(mode, current, config.screenSizes, PrimStyles(config, colors, Create), PrimStyles(config, colors, Disabled));
  }

  /** Outside the breakpoint keys, every category at the top level is the live one. */
  lemma ThemeTopLevelIsLive(config: Config, mode: ColorMode, current: string, colors: Table)
    ensures forall k :: k in PrimStyles(config, colors, Create) && k !in config.screenSizes ==>
      k in PrimTheme(config, mode, current, colors) &&
      PrimTheme(config, mode, current, colors)[k] == PrimStyles(config, colors, Create)[k]
  {
  }

  /** The theme carries the mode's name and the current screen size, unless a breakpoint key shadows them. */
  lemma ThemeScalars(config: Config, mode: ColorMode, current: string, colors: Table)
    ensures "mode" !in config.screenSizes ==> PrimTheme(config, mode, current, colors)["mode"] == Scalar(mode.Name())
    ensures "screenSize" !in config.screenSizes ==> PrimTheme(config, mode, current, colors)["screenSize"] == Scalar(current)
  {
    ScalarsAreNoStyles(config, colors);
  }

  lemma ScalarsAreNoStyles(config: Config, colors: Table)
    ensures "mode" !in PrimStyles(config, colors, Create) && "screenSize" !in PrimStyles(config, colors, Create)
  {
    ScalarsOutsideStyleKeys();
    StyleKeysFixed(config, colors, Create);
  }

  /**
   * Configured with the default screen sizes and fed the class of the window
   * width, the theme has exactly that class's breakpoint live.
   */
  lemma DefaultBreakpointFollowsWidth(config: Config, mode: ColorMode, w: real, colors: Table)
    requires config.screenSizes == DefaultScreenSizes
    ensures LiveBreakpoints(PrimTheme(config, mode, SizeForWidth(w).Name(), colors), config.screenSizes,
      PrimStyles(config, colors, Create)) == {SizeForWidth(w).Name()}
  {
    EnumKeysAreValues();
    ThemeOneLive(config, mode, SizeForWidth(w).Name(), colors);
  }
}
