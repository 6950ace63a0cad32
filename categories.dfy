/**
 * The literal style tables and the category families that
 * src/configurePrim.tsx and prim.tsx build the same way: layout, text
 * decoration, relative sizes, position, z-index and inset.
 */
module Categories {
  import opened Tokens
  import opened Expander

  const FlexStyles: map<string, Style> := map[
    "one" := map["flex" := Num(1.0)],
    "row" := map["flexDirection" := Str("row")],
    "rowR" := map["flexDirection" := Str("row-reverse")],
    "col" := map["flexDirection" := Str("column")],
    "colR" := map["flexDirection" := Str("column-reverse")],
    "wrap" := map["flexWrap" := Str("wrap")],
    "noWrap" := map["flexWrap" := Str("nowrap")],
    "grow" := map["flexGrow" := Num(1.0)],
    "grow0" := map["flexGrow" := Num(0.0)],
    "shrink" := map["flexShrink" := Num(1.0)],
    "shrink0" := map["flexShrink" := Num(0.0)]
  ]

  const ItemsStyles: map<string, Style> := map[
    "stretch" := map["alignItems" := Str("stretch")],
    "start" := map["alignItems" := Str("flex-start")],
    "center" := map["alignItems" := Str("center")],
    "end" := map["alignItems" := Str("flex-end")],
    "baseline" := map["alignItems" := Str("baseline")]
  ]

  const SelfStyles: map<string, Style> := map[
    "auto" := map["alignSelf" := Str("auto")],
    "start" := map["alignSelf" := Str("flex-start")],
    "center" := map["alignSelf" := Str("center")],
    "end" := map["alignSelf" := Str("flex-end")],
    "stretch" := map["alignSelf" := Str("stretch")]
  ]

  const ContentStyles: map<string, Style> := map[
    "center" := map["alignContent" := Str("center")],
    "start" := map["alignContent" := Str("flex-start")],
    "end" := map["alignContent" := Str("flex-end")],
    "between" := map["alignContent" := Str("space-between")],
    "around" := map["alignContent" := Str("space-around")],
    "stretch" := map["alignContent" := Str("stretch")]
  ]

  const JustifyStyles: map<string, Style> := map[
    "start" := map["justifyContent" := Str("flex-start")],
    "center" := map["justifyContent" := Str("center")],
    "end" := map["justifyContent" := Str("flex-end")],
    "between" := map["justifyContent" := Str("space-between")],
    "around" := map["justifyContent" := Str("space-around")],
    "evenly" := map["justifyContent" := Str("space-evenly")]
  ]

  const OverflowStyles: map<string, Style> := map[
    "hidden" := map["overflow" := Str("hidden")],
    "visible" := map["overflow" := Str("visible")],
    "scroll" := map["overflow" := Str("scroll")]
  ]

  /** Text alignment, decoration and case literals of the `text` category. */
  const TextStyles: map<string, Style> := map[
    "left" := map["textAlign" := Str("left")],
    "center" := map["textAlign" := Str("center")],
    "right" := map["textAlign" := Str("right")],
    "justify" := map["textAlign" := Str("justify")],
    "underline" := map["textDecorationStyle" := Str("solid"), "textDecorationLine" := Str("underline")],
    "lineThrough" := map["textDecorationStyle" := Str("solid"), "textDecorationLine" := Str("line-through")],
    "noUnderline" := map["textDecorationLine" := Str("none")],
    "uppercase" := map["textTransform" := Str("uppercase")],
    "lowercase" := map["textTransform" := Str("lowercase")],
    "capitalize" := map["textTransform" := Str("capitalize")],
    "noTextTransform" := map["textTransform" := Str("none")]
  ]

  /** The fixed `font` set of prim.tsx. */
  const FontStyles: map<string, Style> := map[
    "medium" := map["fontWeight" := Str("500")],
    "semiBold" := map["fontWeight" := Str("600")],
    "bold" := map["fontWeight" := Str("700")],
    "italic" := map["fontStyle" := Str("italic")]
  ]

  /** Spread at the top level of the fragment set. */
  const PositionStyles: map<string, Style> := map[
    "absolute" := map["position" := Str("absolute")],
    "relative" := map["position" := Str("relative")]
  ]

  /** Spread at the top level of the fragment set. */
  const ZIndexStyles: map<string, Style> := map[
    "z00" := map["zIndex" := Num(0.0)],
    "z10" := map["zIndex" := Num(10.0)],
    "z20" := map["zIndex" := Num(20.0)],
    "z30" := map["zIndex" := Num(30.0)],
    "z40" := map["zIndex" := Num(40.0)],
    "z50" := map["zIndex" := Num(50.0)]
  ]

  /**
   * The `inset` shorthands as the source writes them: `right0`, `bottom0` and
   * `left0` each set `top`, not their own edge (a likely copy-paste defect).
   */
  const InsetStyles: map<string, Style> := map[
    "zero" := map["top" := Num(0.0), "right" := Num(0.0), "bottom" := Num(0.0), "left" := Num(0.0)],
    "x0" := map["right" := Num(0.0), "left" := Num(0.0)],
    "y0" := map["top" := Num(0.0), "bottom" := Num(0.0)],
    "top0" := map["top" := Num(0.0)],
    "right0" := map["top" := Num(0.0)],
    "bottom0" := map["top" := Num(0.0)],
    "left0" := map["top" := Num(0.0)]
  ]

  /**
   * The `inset` shorthands as their names say, each edge shorthand setting its
   * own edge. The builders do not use this table; it records what the edge
   * shorthands were evidently meant to register.
   */
  const IntendedInsetStyles: map<string, Style> := map[
    "zero" := map["top" := Num(0.0), "right" := Num(0.0), "bottom" := Num(0.0), "left" := Num(0.0)],
    "x0" := map["right" := Num(0.0), "left" := Num(0.0)],
    "y0" := map["top" := Num(0.0), "bottom" := Num(0.0)],
    "top0" := map["top" := Num(0.0)],
    "right0" := map["right" := Num(0.0)],
    "bottom0" := map["bottom" := Num(0.0)],
    "left0" := map["left" := Num(0.0)]
  ]

  /** Padding, margin and sizing categories, each with the style attribute it sets. */
  const RelativeAttributes: map<string, string> := map[
    "p" := "padding", "px" := "paddingHorizontal", "py" := "paddingVertical",
    "pt" := "paddingTop", "pr" := "paddingRight", "pb" := "paddingBottom",
    "pl" := "paddingLeft", "ps" := "paddingStart", "pe" := "paddingEnd",
    "m" := "margin", "mx" := "marginHorizontal", "my" := "marginVertical",
    "mt" := "marginTop", "mr" := "marginRight", "mb" := "marginBottom",
    "ml" := "marginLeft", "ms" := "marginStart", "me" := "marginEnd",
    "w" := "width", "minW" := "minWidth", "maxW" := "maxWidth",
    "h" := "height", "minH" := "minHeight", "maxH" := "maxHeight"
  ]

  /** The border categories, each with its colour attribute and its width attribute. */
  const BorderAttributes: map<string, (string, string)> := map[
    "border" := ("borderColor", "borderWidth"),
    "borderTop" := ("borderTopColor", "borderTopWidth"),
    "borderBottom" := ("borderBottomColor", "borderBottomWidth"),
    "borderRight" := ("borderRightColor", "borderRightWidth"),
    "borderLeft" := ("borderLeftColor", "borderLeftWidth")
  ]

  const LayoutKeys: set<string> := {"flex", "items", "self", "content", "justify", "overflow"}
  const BorderKeys: set<string> := {"border", "borderTop", "borderBottom", "borderRight", "borderLeft"}
  const RelativeKeys: set<string> := {
    "p", "px", "py", "pt", "pr", "pb", "pl", "ps", "pe",
    "m", "mx", "my", "mt", "mr", "mb", "ml", "ms", "me",
    "w", "minW", "maxW", "h", "minH", "maxH"}
  /** The keys `TrailingAtoms` contributes at the top level. */
  const AtomKeys: set<string> := {"absolute", "relative", "z00", "z10", "z20", "z30", "z40", "z50", "inset"}

  /** `flex`, `items`, `self`, `content`, `justify` and `overflow`, each with its literal styles. */
  const LayoutStyles: map<string, map<string, Style>> := map[
    "flex" := FlexStyles,
    "items" := ItemsStyles,
    "self" := SelfStyles,
    "content" := ContentStyles,
    "justify" := JustifyStyles,
    "overflow" := OverflowStyles
  ]

  function LayoutCategories(sheet: Sheet): map<string, Entry>
  {
    Family(sheet, LayoutStyles)
  }

  /** Every padding, margin and sizing category, built from the given size table. */
  function RelativeCategories(sheet: Sheet, sizes: Table): map<string, Entry>
  {
    map c | c in RelativeAttributes :: Group(WithRelativeSizes(sheet, sizes, RelativeAttributes[c]))
  }

  /** Each relative-size category is the helper run for its attribute. */
  lemma RelativeCategoriesAt(sheet: Sheet, sizes: Table)
    ensures forall c :: c in RelativeAttributes ==>
      c in RelativeCategories(sheet, sizes) &&
      RelativeCategories(sheet, sizes)[c] == Group(WithRelativeSizes(sheet, sizes, RelativeAttributes[c]))
  {
  }

  /** The literal atoms spread at the top level, then `inset`. */
  function TrailingAtoms(sheet: Sheet): map<string, Entry>
  {
    SS(sheet, PositionStyles) + SS(sheet, ZIndexStyles) + map["inset" := Group(SS(sheet, InsetStyles))]
  }

  /** The key sets of the category families, whatever the tokens and the constructor. */
  lemma FamilyKeys(sheet: Sheet, sizes: Table)
    ensures LayoutCategories(sheet).Keys == LayoutKeys
    ensures BorderAttributes.Keys == BorderKeys
    ensures RelativeCategories(sheet, sizes).Keys == RelativeKeys
    ensures TrailingAtoms(sheet).Keys == AtomKeys
  {
    LayoutKeysAre(sheet);
    BorderKeysAre();
    RelativeKeysAre();
    RelativeCategoriesKeys(sheet, sizes);
    AtomKeysAre(sheet);
  }

  lemma LayoutKeysAre(sheet: Sheet)
    ensures LayoutCategories(sheet).Keys == LayoutKeys
  {
    LayoutStylesKeys();
  }

  lemma LayoutStylesKeys()
    ensures LayoutStyles.Keys == LayoutKeys
  {
  }

  lemma BorderKeysAre()
    ensures BorderAttributes.Keys == BorderKeys
  {
  }

  lemma RelativeCategoriesKeys(sheet: Sheet, sizes: Table)
    ensures RelativeCategories(sheet, sizes).Keys == RelativeKeys
  {
    RelativeKeysAre();
  }

  lemma RelativeKeysAre()
    ensures RelativeAttributes.Keys == RelativeKeys
  {
  }

  lemma AtomKeysAre(sheet: Sheet)
    ensures TrailingAtoms(sheet).Keys == AtomKeys
  {
    PositionKeys();
    ZIndexKeys();
  }

  lemma PositionKeys()
    ensures PositionStyles.Keys == {"absolute", "relative"}
  {
  }

  lemma ZIndexKeys()
    ensures ZIndexStyles.Keys == {"z00", "z10", "z20", "z30", "z40", "z50"}
  {
  }

  /** No two category families share a key. */
  lemma FamiliesDisjoint()
    ensures LayoutKeys !! BorderKeys && LayoutKeys !! RelativeKeys && LayoutKeys !! AtomKeys
    ensures BorderKeys !! RelativeKeys && BorderKeys !! AtomKeys && RelativeKeys !! AtomKeys
  {
    LayoutRelativeDisjoint();
    LayoutOthersDisjoint();
    BorderRelativeDisjoint();
    BorderAtomsDisjoint();
    RelativeAtomsDisjoint();
  }

  lemma LayoutRelativeDisjoint()
    ensures LayoutKeys !! RelativeKeys
  {
  }

  lemma LayoutOthersDisjoint()
    ensures LayoutKeys !! BorderKeys && LayoutKeys !! AtomKeys
  {
  }

  lemma BorderAtomsDisjoint()
    ensures BorderKeys !! AtomKeys
  {
  }

  lemma BorderRelativeDisjoint()
    ensures BorderKeys !! RelativeKeys
  {
  }

  lemma RelativeAtomsDisjoint()
    ensures RelativeKeys !! AtomKeys
  {
  }

  // ---------------------------------------------------------------------------
  // The families built with the disabled constructor
  // ---------------------------------------------------------------------------

  lemma LayoutInert()
    ensures InertAll(LayoutCategories(Create)) == LayoutCategories(Disabled)
  {
    FamilyInert(LayoutStyles);
  }

  lemma RelativeInert(sizes: Table)
    ensures InertAll(RelativeCategories(Create, sizes)) == RelativeCategories(Disabled, sizes)
  {
    RelativeAsFamily(Create, sizes);
    RelativeAsFamily(Disabled, sizes);
    FamilyInert(RelativeStyles(sizes));
  }

  /** The fragments of every relative-size category, before `ss` registers them. */
  function RelativeStyles(sizes: Table): map<string, map<string, Style>>
  {
    map c | c in RelativeAttributes :: Fragments(sizes, RelativeAttributes[c]) + RelativeLiterals(RelativeAttributes[c])
  }

  /** Two `ss` calls spread together register the same fragments as one call on the spread input. */
  lemma RelativeAsFamily(sheet: Sheet, sizes: Table)
    ensures RelativeCategories(sheet, sizes) == Family(sheet, RelativeStyles(sizes))
  {
    forall c | c in RelativeAttributes
      ensures WithRelativeSizes(sheet, sizes, RelativeAttributes[c])
           == SS(sheet, Fragments(sizes, RelativeAttributes[c]) + RelativeLiterals(RelativeAttributes[c]))
    {
      SpreadSS(sheet, Fragments(sizes, RelativeAttributes[c]), RelativeLiterals(RelativeAttributes[c]));
    }
  }

  /** Two spread `ss` calls and one nested category, erased, are the same built with the disabled constructor. */
  lemma SpreadThenGroupInert(first: map<string, Style>, second: map<string, Style>, key: string, nested: map<string, Style>)
    ensures InertAll(SS(Create, first) + SS(Create, second) + map[key := Group(SS(Create, nested))])
         == SS(Disabled, first) + SS(Disabled, second) + map[key := Group(SS(Disabled, nested))]
  {
    InertUnion(SS(Create, first) + SS(Create, second), map[key := Group(SS(Create, nested))]);
    InertUnion(SS(Create, first), SS(Create, second));
    DisabledIsInertCreate(first);
    DisabledIsInertCreate(second);
    DisabledIsInertCreate(nested);
    assert Inert(Group(SS(Create, nested))) == Group(InertAll(SS(Create, nested)));
    assert InertAll(map[key := Group(SS(Create, nested))]) == map[key := Group(SS(Disabled, nested))];
  }

  lemma AtomsInert()
    ensures InertAll(TrailingAtoms(Create)) == TrailingAtoms(Disabled)
  {
    SpreadThenGroupInert(PositionStyles, ZIndexStyles, "inset", InsetStyles);
  }

  /** `inset` is the last key of the trailing atoms. */
  lemma InsetInAtoms(sheet: Sheet)
    ensures "inset" in TrailingAtoms(sheet) && TrailingAtoms(sheet)["inset"] == Group(SS(sheet, InsetStyles))
  {
  }

  /** The edge shorthands as written: `right0`, `bottom0` and `left0` each set `top`, as `top0` does. */
  lemma InsetEdgesAsWritten()
    ensures "top0" in InsetStyles && "right0" in InsetStyles && "bottom0" in InsetStyles && "left0" in InsetStyles
    ensures InsetStyles["right0"] == map["top" := Num(0.0)]
    ensures InsetStyles["bottom0"] == map["top" := Num(0.0)]
    ensures InsetStyles["left0"] == map["top" := Num(0.0)]
    ensures InsetStyles["top0"] == map["top" := Num(0.0)]
  {
  }

  /**
   * The written table and the intended one have the same names and differ
   * exactly at `right0`, `bottom0` and `left0`, where the written fragment
   * sets `top` instead of the named edge.
   */
  lemma InsetDefect()
    ensures IntendedInsetStyles.Keys == InsetStyles.Keys
    ensures forall k :: k in InsetStyles ==>
      (InsetStyles[k] != IntendedInsetStyles[k] <==> k == "right0" || k == "bottom0" || k == "left0")
    ensures IntendedInsetStyles["top0"].Keys == {"top"} && IntendedInsetStyles["right0"].Keys == {"right"}
    ensures IntendedInsetStyles["bottom0"].Keys == {"bottom"} && IntendedInsetStyles["left0"].Keys == {"left"}
  {
    forall k | k in InsetStyles
      ensures InsetStyles[k] != IntendedInsetStyles[k] <==> k == "right0" || k == "bottom0" || k == "left0"
    {
      assert k in {"zero", "x0", "y0", "top0", "right0", "bottom0", "left0"};
      if k == "right0" {
        assert "right" in IntendedInsetStyles[k];
      } else if k == "bottom0" {
        assert "bottom" in IntendedInsetStyles[k];
      } else if k == "left0" {
        assert "left" in IntendedInsetStyles[k];
      }
    }
  }

  /** The names of the literal text styles. */
  const TextKeys: set<string> := {"left", "center", "right", "justify", "underline", "lineThrough",
                                   "noUnderline", "uppercase", "lowercase", "capitalize", "noTextTransform"}

  lemma TextKeysAre()
    ensures TextStyles.Keys == TextKeys
  {
  }
}
