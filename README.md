# react-native-prim theme engine in Dafny

This project models the theming core of react-native-prim. The library is
configured once with design tokens: light and dark colour palettes, a spacing
or size scale, radii, font sizes and weights, and named screen-size
breakpoints. From these it builds a theme object holding one style fragment
per token per style attribute, plus a fixed set of literal fragments. It also
keeps one copy of the whole fragment set per breakpoint. That copy is live
only while its breakpoint is the current screen size; otherwise it is inert,
with every fragment `undefined`.

The project models the following pieces:

- **The attribute expander and the relative-size helper** (`Expander`).
  - `ssWithValuesForAttribute(table, attribute)` turns each token into the fragment `{[attribute]: value}`.
  - `ssForForAttributeWithRelativeSizes` adds `full` = '100%' and `half` = '50%'.
  - The `Object.entries(..).map(..).reduce(spread, {})` fold is modelled as written (`Tokens.Spread`). It is proved to rebuild the same map in whatever key order `Object.entries` lists the entries.
- **The two fragment constructors** (`Tokens`).
  - `StyleSheet.create` is taken as the identity on the fragments it registers.
  - `disabledStyleSheet` keeps every key and maps it to `undefined`.
  - Both are compared against a reference definition of erasure, `Inert`.
- **The theme builder** `primStyles` of src/configurePrim.tsx (`ConfigurePrim`) and of the older prim.tsx (`LegacyPrim`).
  - Both build the same top-level object literal. `FragmentSet.Parts` spreads it in source order, and the shared literal category tables are in `Categories`.
  - The older engine differs in four places:
    - its border categories nest `color` and `width` sub-maps;
    - `font` is a fixed literal set;
    - `text` nests its colours under `color`;
    - `rounded` expands `borderRadii(sizes)`.
- **The variant gate and theme assembly** `primTheme` (`Gate`). Breakpoint keys are spread last, and each holds the live set exactly when it equals the current screen size.
- **The `PrimProvider` memo** (`Store.PrimProvider`). It is a class holding the last dependency list `[mode, colors, screenSize]` and the last theme. The palette is compared by reference, as `===` does, so palettes are objects.
- **The style-binding wrapper** `primmed` / `primp` (`Primmed`).
  - The style array is `[selected, props.style]`.
  - The outer ref reaches the wrapped component.
  - The display name is `"Primped." + (displayName || name)`.
  - Statics are hoisted onto the returned component.
- **The default screen-size enum and `sizeForWidth`** (`ScreenSizes`). Widths are `real`.

**Inset shorthands.** In both engines the `inset` shorthands `right0`, `bottom0` and `left0` each set `top: 0`, the same as `top0`
(src/configurePrim.tsx:263-271, prim.tsx:255-263). This looks like a copy-paste
defect: each was evidently meant to set its own edge. The model keeps the
code as written and states the behaviour in `Categories.InsetEdgesAsWritten`,
`ConfigurePrim.InsetAsWritten` and `LegacyPrim.InsetAsWritten`. The intended
table, `Categories.IntendedInsetStyles`, is recorded beside it but used by
neither builder. `Categories.InsetDefect` proves that the two tables differ
exactly at those three shorthands. Any
"palette change" or "shape" statement about `inset` is about the code as
written.

Neither engine has opacity categories, custom atoms, caller-supplied text styles or a separate border-width table. The border widths of src/configurePrim.tsx come from `spacing` (src/configurePrim.tsx:144), and those of prim.tsx from `sizes`. The default options carry a `borderWidth` table (src/defaultOptions/border.ts:14, src/defaultOptions/index.ts:4,14) that is passed to `configurePrim`, but the builder never reads it. Custom atoms appear only in the test file src/__tests__/configurePrim.test.tsx. `usePrim` does no run-time check for a missing provider.

## Model

| member | source | states |
|---|---|---|
| Tokens.DisabledReduce | src/configurePrim.tsx:21-31 | `disabledStyleSheet`'s reduce, over any listing of its input, yields exactly the input's keys, each mapped to `undefined` |
| Tokens.DisabledIsInertCreate | src/configurePrim.tsx:21-31 | the disabled constructor equals the live constructor with every fragment erased (reference definition `Inert`) |
| Tokens.InertKeepsShape | src/configurePrim.tsx:21-31 | erasing fragments keeps every key at every nesting level and fragment opposite fragment |
| Tokens.InertIdempotent | src/configurePrim.tsx:21-31 | erasing an already erased tree changes nothing |
| Tokens.FamilyInert | prim.tsx:12-22 | a family of categories built with `disabledStyleSheet` is the live family erased |
| Tokens.SpreadRebuilds | src/configurePrim.tsx:71-76 | folding any listing of a map with object spread rebuilds exactly that map, whatever the order |
| Expander.ExpanderReduce | src/configurePrim.tsx:60-78 | the map-then-reduce over any `Object.entries` order produces one `{[attribute]: value}` fragment per token |
| Expander.ExpanderComplete | src/configurePrim.tsx:60-78 | the expander's keys are exactly the table's keys; each live entry is a fragment with the single key `attribute` set to the token's value; each inert entry is `undefined` |
| Expander.RelativeSizesContents | src/configurePrim.tsx:79-89 | a relative-size category holds every size name plus `full` = '100%' and `half` = '50%', and the literals win over size names `full`/`half` |
| Categories.FamilyKeys | src/configurePrim.tsx:91-273 | the layout, border, relative-size and trailing-atom families have fixed key sets, whatever the tokens and constructor |
| Categories.FamiliesDisjoint | src/configurePrim.tsx:91-273 | no two category families share a top-level key |
| Categories.RelativeAsFamily | src/configurePrim.tsx:79-89 | spreading the token `ss` call and the literal `ss` call registers what one call on the spread input would |
| Categories.LayoutInert | src/configurePrim.tsx:93-140 | the layout categories built with the disabled constructor are the live ones erased |
| Categories.RelativeInert | src/configurePrim.tsx:200-227 | the relative-size categories built with the disabled constructor are the live ones erased |
| Categories.AtomsInert | src/configurePrim.tsx:231-272 | position, z-index and `inset` built with the disabled constructor are the live ones erased |
| Categories.InsetEdgesAsWritten | src/configurePrim.tsx:245-272 | `right0`, `bottom0` and `left0` register `{top: 0}`, the same fragment as `top0` (likely defect, kept as written) |
| Categories.InsetDefect | src/configurePrim.tsx:245-272 | the written inset table and the intended one (each edge shorthand setting its own edge) have the same names and differ exactly at `right0`, `bottom0` and `left0` |
| FragmentSet.PartsInert | src/configurePrim.tsx:91-273 | erasing the spread of the parts equals spreading the erased parts |
| FragmentSet.PartsOutside | src/configurePrim.tsx:91-273 | two spreads differing only in the palette-built parts agree on every other key |
| Gate.BreakpointsReduce | src/configurePrim.tsx:292-301 | the reduce over `Object.keys(screenSizes)`, in any order, maps each breakpoint key to the live set if it equals the current variant and to the inert set otherwise |
| Gate.Assemble | src/configurePrim.tsx:302-307 | the theme's keys are `mode`, `screenSize`, the live keys and the breakpoint keys; breakpoint keys override same-named top-level keys; other top-level keys hold the live entry; `mode`/`screenSize` carry the inputs unless shadowed |
| Gate.ExactlyOneLive | src/configurePrim.tsx:292-301 | when live and inert sets differ, the live breakpoints are exactly `{current}` if it is a key and none otherwise |
| Gate.HookValueSelectsItsKey | src/configurePrim.tsx:292-301 | if every enum value equals its key, a breakpoint is live iff its value is the hook's returned value |
| Gate.EnumValueMismatchGatesNothing | src/configurePrim.tsx:292-301 | without that precondition the gate misses: `{small: 'S'}` with hook value `'S'` has no live breakpoint |
| ConfigurePrim.StyleKeysFixed | src/configurePrim.tsx:91-273 | the fragment set's top-level keys are a fixed set, independent of tokens and constructor |
| ConfigurePrim.ColorsIsRawPalette | src/configurePrim.tsx:92 | `colors` is the raw palette in both the live and the inert set |
| ConfigurePrim.BgInPlace | src/configurePrim.tsx:141 | `bg` is the palette expanded with `backgroundColor` |
| ConfigurePrim.BordersInPlace | src/configurePrim.tsx:142-161 | each of the five border categories is its colour expansion spread with its spacing-width expansion |
| ConfigurePrim.TextInPlace | src/configurePrim.tsx:165-197 | `text` is font sizes, then colours, then the literal text styles, spread in that order |
| ConfigurePrim.RelativeInPlace | src/configurePrim.tsx:199-227 | each padding, margin and sizing category is the relative-size helper over `spacing` for its attribute |
| ConfigurePrim.BordersInert | src/configurePrim.tsx:142-161 | the border family built with the disabled constructor is the live one erased |
| ConfigurePrim.BordersAsFamily | src/configurePrim.tsx:142-161 | each border category's two spread `ss` calls equal one call on the merged fragments |
| ConfigurePrim.TextInert | src/configurePrim.tsx:165-197 | `text` built with the disabled constructor is the live one erased |
| ConfigurePrim.InertIsErasedLive | src/configurePrim.tsx:290-291 | the set built with `disabledStyleSheet` is exactly the live set with every fragment erased |
| ConfigurePrim.InertSameShape | src/configurePrim.tsx:290-291 | the inert set has the live set's keys and shape at every level |
| ConfigurePrim.InsetInPlace | src/configurePrim.tsx:245-272 | `inset` is the inset literals registered by the given constructor |
| ConfigurePrim.InsetAsWritten | src/configurePrim.tsx:263-271 | in the live set, `inset.right0`, `bottom0` and `left0` are `{top: 0}`, equal to `top0` |
| ConfigurePrim.LiveDiffersFromInert | src/configurePrim.tsx:290-291 | the live and inert sets always differ, so the gate can tell them apart |
| ConfigurePrim.BorderMergeOrder | src/configurePrim.tsx:142-161 | a border category holds every colour and spacing name; a name in both gets the width fragment |
| ConfigurePrim.TextMergeOrder | src/configurePrim.tsx:165-197 | `text` holds sizes, colours and literals; a literal beats a colour or size, a colour beats a size |
| ConfigurePrim.RelativeCategoryContents | src/configurePrim.tsx:200-227 | every relative-size category of the live set holds every spacing key plus `full`/`half`, with the literals winning |
| ConfigurePrim.PaletteChangeIsLocal | src/configurePrim.tsx:141-272 | for every top-level key outside `colors`, `bg`, `text` and the border family, two palettes give the same entry |
| ConfigurePrim.BorderWidthsIgnorePalette | src/configurePrim.tsx:142-161 | inside a border category every spacing-named entry is the same under any palette |
| ConfigurePrim.TextIgnoresPalette | src/configurePrim.tsx:165-197 | inside `text` the literal entries, and sizes no palette shadows, are the same under any palette |
| ConfigurePrim.BackgroundFollowsPalette | src/configurePrim.tsx:141 | `bg.<name>` is `{backgroundColor: colors[name]}` for every palette name |
| ConfigurePrim.ThemeKeys | src/configurePrim.tsx:302-307 | the theme's keys are `mode`, `screenSize`, the fragment-set keys and the breakpoint keys |
| ConfigurePrim.ThemeBreakpoints | src/configurePrim.tsx:290-301 | each breakpoint key holds the live set if it is the current variant and the erased live set otherwise |
| ConfigurePrim.ThemeOneLive | src/configurePrim.tsx:292-301 | exactly the current variant is live if it is a breakpoint key; otherwise none is |
| ConfigurePrim.ThemeTopLevelIsLive | src/configurePrim.tsx:305-306 | every top-level category not shadowed by a breakpoint key is the live one |
| ConfigurePrim.ThemeScalars | src/configurePrim.tsx:302-304 | `mode` is the mode's name and `screenSize` the current variant unless a breakpoint key shadows them |
| ConfigurePrim.ScalarsAreNoStyles | src/configurePrim.tsx:302-305 | the fragment set has no `mode` or `screenSize` key, so spreading it cannot overwrite them |
| ConfigurePrim.DefaultBreakpointFollowsWidth | src/configurePrim.tsx:285-308 | configured with the default screen sizes and given the class of any width, exactly that class's breakpoint is live |
| LegacyPrim.StyleKeysFixed | prim.tsx:78-265 | the older set has the same fixed top-level keys, independent of tokens and constructor |
| LegacyPrim.BordersInPlace | prim.tsx:129-148 | each border category is `{color: <colour expansion>, width: <size expansion>}` |
| LegacyPrim.BorderColorsAndWidthsApart | prim.tsx:129-148 | a border category has exactly `color` and `width`; every colour and every size keeps its own fragment, so none collide |
| LegacyPrim.FontIsFixed | prim.tsx:149-154 | `font` is the fixed literal set, whatever the tokens |
| LegacyPrim.FontKeys | prim.tsx:149-154 | the literal `font` set is {medium, semiBold, bold, italic} |
| LegacyPrim.TextInPlace | prim.tsx:155-186 | `text` is the nested colour map beside the literal text styles |
| LegacyPrim.TextNested | prim.tsx:155-186 | `text` holds `color` and the literal names only; the colours sit one level down |
| LegacyPrim.RoundedFromRadii | prim.tsx:218-221 | `rounded` is the expander applied to the radii with `borderRadius` |
| LegacyPrim.RelativeInPlace | prim.tsx:188-216 | each padding, margin and sizing category is the relative-size helper over `sizes` |
| LegacyPrim.RelativeCategoryContents | prim.tsx:66-76 | every relative-size category holds every size name plus `full`/`half`, with the literals winning |
| LegacyPrim.BorderCategoryInert | prim.tsx:129-148 | a nested border category built with the disabled constructor is the live one erased |
| LegacyPrim.BordersInert | prim.tsx:129-148 | the nested border family built with the disabled constructor is the live one erased |
| LegacyPrim.TextInert | prim.tsx:155-186 | nested `text` built with the disabled constructor is the live one erased |
| LegacyPrim.InertIsErasedLive | prim.tsx:282-283 | the older inert set is exactly the live set with every fragment erased |
| LegacyPrim.InsetInPlace | prim.tsx:237-264 | `inset` is the inset literals registered by the given constructor |
| LegacyPrim.InsetAsWritten | prim.tsx:255-263 | `inset.right0`, `bottom0` and `left0` are `{top: 0}`, equal to `top0` (likely defect, kept as written) |
| LegacyPrim.LiveDiffersFromInert | prim.tsx:282-283 | the older live and inert sets always differ |
| LegacyPrim.ThemeBreakpoints | prim.tsx:282-293 | each breakpoint key holds the live set if it is the current variant and the erased set otherwise |
| LegacyPrim.ThemeOneLive | prim.tsx:284-293 | exactly the current variant is live if it is a breakpoint key; otherwise none is |
| LegacyPrim.ThemeTopLevelIsLive | prim.tsx:294-299 | every top-level category not shadowed by a breakpoint key is the live one |
| LegacyPrim.ThemeRounded | prim.tsx:218-221 | the theme's `rounded` expands `borderRadii(sizes)` of the configuration |
| ScreenSizes.Bands | src/defaultOptions/ScreenSize.ts:13-33 | each class is exactly its band: ≤350 mini, ≤400 x, ≤500 max, ≤800 tablet, ≤1100 lg, ≤1300 xl, above xxl (both directions) |
| ScreenSizes.RankCountsBounds | src/defaultOptions/ScreenSize.ts:13-33 | a width's class position in enum order is the number of bounds it exceeds |
| ScreenSizes.CountBelowMonotone | src/defaultOptions/ScreenSize.ts:13-33 | the number of bounds below a width grows with the width |
| ScreenSizes.Monotone | src/defaultOptions/ScreenSize.ts:13-33 | a wider screen never gets an earlier class |
| ScreenSizes.WidthFor | src/defaultOptions/ScreenSize.ts:13-33 | a width that classifies to each given class |
| ScreenSizes.Reachable | src/defaultOptions/ScreenSize.ts:3-33 | every enum member is the class of some width |
| ScreenSizes.FromName | src/defaultOptions/ScreenSize.ts:3-11 | looks a member up by its string value; none exists for any other string |
| ScreenSizes.EnumKeysAreValues | src/defaultOptions/ScreenSize.ts:3-11 | every enum value equals its key, and the keys are exactly the seven member names |
| ScreenSizes.NameInjective | src/defaultOptions/ScreenSize.ts:3-11 | distinct members have distinct string values |
| ScreenSizes.WidthSelectsOneBreakpoint | src/defaultOptions/ScreenSize.ts:3-33 | gating on the default enum with the class of any width makes exactly that class's key live |
| Store.ModeOf | src/defaultConfig/useDarkMode.ts:3-9 | the mode is dark iff the platform scheme is `'dark'` |
| Store.PrimProvider.ColorsFor | src/configurePrim.tsx:320 | `config.colors[mode]`: the dark palette in dark mode and the light palette in light mode |
| Store.PrimProvider.constructor | src/configurePrim.tsx:318-327 | a new provider has no cached dependencies |
| Store.PrimProvider.Render | src/configurePrim.tsx:318-327 | the theme handed on is always `primTheme` of the current inputs; it is rebuilt exactly when mode, palette reference or screen size differs from the previous render, and otherwise the cached theme is returned |
| Primmed.Forward | src/configurePrim.tsx:386-390 | the outer component passes every prop on and adds the ref as `forwardedRef` |
| Primmed.Primped | src/configurePrim.tsx:369-381 | `forwardedRef` is removed from the props, `style` becomes `[selected, props.style]`, every other prop is passed through, and the ref is `forwardedRef` |
| Primmed.Wrapper.Render | src/configurePrim.tsx:369-390 | a render of the returned component passes `[selector(theme), props.style]` and attaches the outer ref |
| Primmed.RenderContract | src/configurePrim.tsx:369-390 | over both layers, the style is `[selector(theme), props.style]`, selection first; the outer ref is attached whatever `forwardedRef` the caller passed; other props pass unchanged |
| Primmed.NestedWrappers | prim.tsx:361-382 | wrapping a wrapped component nests the style arrays, inner selection first, and still forwards the ref |
| Primmed.DisplayName | src/configurePrim.tsx:382-384 | the name is `Primped.` followed by the display name; when that is undefined or empty, by the component name; when the name is undefined too (a forward-ref object), by `undefined` |
| Primmed.Hoist | src/configurePrim.tsx:391 | every non-reserved static of the wrapped component is copied onto the target; the target keeps its other statics |
| Primmed.HoistIdempotent | src/configurePrim.tsx:391 | hoisting the same statics again changes nothing |
| Primmed.Wrap | src/configurePrim.tsx:365-392 | `primmed` builds a fresh `PrimpedComponent` whose display name is `DisplayName(..)` of the wrapped component, and returns a fresh forward-ref component with no name and no display name that carries the hoisted statics of the wrapped component |
| Primmed.WrapTwice | src/configurePrim.tsx:382-391 | wrapping what `primmed` returned names the second `PrimpedComponent` `Primped.undefined`, whatever the first component was called, and hoists the same statics again |
| Primmed.HoistTwice | src/configurePrim.tsx:391 | hoisting onto an empty target what an earlier hoist produced gives that same result |

## Left out

- React context, `usePrim` and the provider element (src/configurePrim.tsx:310-316, 329). A render is given the theme directly (`Primmed.RenderWrapped`). `usePrim`'s non-null assertion does nothing at run time, so no error path is modelled for it.
- `React.forwardRef` ref semantics. Refs are opaque values (`Primmed.Prop.RefTo`), and only their routing is modelled.
- `useMemoOne` internals. `Store.PrimProvider.Render` models only the dependency-keyed cache of one mounted provider, one render at a time.
- `hoist-non-react-statics` is a foreign library. `Primmed.Hoist` copies every static outside a `reserved` set. The library's actual reserved list is a parameter, not modelled. `name` and `displayName` are fields of `Primmed.Component` rather than statics, so no hoist ever copies them, as the library does not.
- `StyleSheet.create` registration and numeric style ids. `Tokens.CreateStyleSheet` is the identity on fragments.
- React Native's flattening of style arrays. "The caller's style wins" is framework behaviour and is not stated.
- The TypeScript overloads and mapped types of `primmed`/`primp` (src/configurePrim.tsx:332-364). Only the implementation signature is modelled.
- The hooks `useScreenSize` (src/defaultOptions/ScreenSize.ts:35-38) and `useDarkMode`. The window width and the platform scheme are inputs: `ScreenSizes.SizeForWidth(w)` and `Store.ModeOf(scheme)` give their logic.
- The default token tables (src/defaultOptions/border.ts, src/defaultConfig/borderRadius.ts) and the wiring files. Tables are parameters everywhere.
- Token values are opaque (`Tokens.Value`). No arithmetic is done on them, `StyleSheet.hairlineWidth` included.
- Widths are `real`. The floating-point representation of a JavaScript `number` (NaN, infinities) is not modelled.
- LegacyPrim.PrimStyles takes the radii table as a parameter. `LegacyPrim.ConfiguredStyles` supplies `config.borderRadii(config.sizes)`, so `borderRadii` is applied once per build, as in prim.tsx:218-221.
- `primp` in prim.tsx:357-384 has the same body as `primmed`, so `Primmed` models both. The same holds for the two `disabledStyleSheet`s (prim.tsx:12-22) and the two providers (prim.tsx:310-319).
- Custom atoms, caller-supplied text styles, opacity steps and a separate `borderWidth` table are absent from the model, because neither engine's code has them.
