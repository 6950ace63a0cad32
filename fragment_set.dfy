/**
 * The top-level shape shared by the two theme builders: the object literal
 * both `primStyles` functions return, spread in the same order, and lookups
 * through that order for parts whose key sets are known.
 */
module FragmentSet {
  import opened Tokens
  import opened Categories

  /**
   * The object literal `primStyles` returns, as spreads in source order: the
   * palette, the layout family, `bg`, the border family, `font` and `text`,
   * the relative-size family, `rounded`, then the trailing atoms.
   */
  function Parts(layout: map<string, Entry>, borders: map<string, Entry>,
                 relative: map<string, Entry>, atoms: map<string, Entry>,
                 palette: Entry, bg: Entry, font: Entry, text: Entry, rounded: Entry): map<string, Entry>
  {
    map["colors" := palette] + layout + map["bg" := bg] + borders + map["font" := font, "text" := text]
      + relative + map["rounded" := rounded] + atoms
  }

  /** The top-level keys of every fragment set, whatever the tokens. */
  const StyleKeys: set<string> :=
    {"colors"} + LayoutKeys + {"bg"} + BorderKeys + {"font", "text"} + RelativeKeys + {"rounded"} + AtomKeys

  /** The categories whose entries are built from the colour palette. */
  const ColorCategories: set<string> := {"colors", "bg", "text"} + BorderKeys

  // ---------------------------------------------------------------------------
  // Lookups through the spread order, for families with their known key sets
  // ---------------------------------------------------------------------------

  /** The four category families have the key sets the builders give them. */
  predicate Families(layout: map<string, Entry>, borders: map<string, Entry>,
                     relative: map<string, Entry>, atoms: map<string, Entry>)
  {
    layout.Keys == LayoutKeys && borders.Keys == BorderKeys && relative.Keys == RelativeKeys && atoms.Keys == AtomKeys
  }

  lemma PartsKeys(a: map<string, Entry>, b: map<string, Entry>, c: map<string, Entry>, d: map<string, Entry>,
                  x0: Entry, x1: Entry, x2: Entry, x3: Entry, x4: Entry)
    requires Families(a, b, c, d)
    ensures Parts(a, b, c, d, x0, x1, x2, x3, x4).Keys == StyleKeys
  {
    PartsKeysListed(a, b, c, d, x0, x1, x2, x3, x4);
  }

  lemma PartsKeysListed(a: map<string, Entry>, b: map<string, Entry>, c: map<string, Entry>, d: map<string, Entry>,
                        x0: Entry, x1: Entry, x2: Entry, x3: Entry, x4: Entry)
    ensures Parts(a, b, c, d, x0, x1, x2, x3, x4).Keys
         == {"colors"} + a.Keys + {"bg"} + b.Keys + {"font", "text"} + c.Keys + {"rounded"} + d.Keys
  {
  }

  lemma PartsColors(a: map<string, Entry>, b: map<string, Entry>, c: map<string, Entry>, d: map<string, Entry>,
                    x0: Entry, x1: Entry, x2: Entry, x3: Entry, x4: Entry)
    requires Families(a, b, c, d)
    ensures "colors" in Parts(a, b, c, d, x0, x1, x2, x3, x4) && Parts(a, b, c, d, x0, x1, x2, x3, x4)["colors"] == x0
  {
    ColorsOutsideFamilies();
  }

  lemma PartsBg(a: map<string, Entry>, b: map<string, Entry>, c: map<string, Entry>, d: map<string, Entry>,
                x0: Entry, x1: Entry, x2: Entry, x3: Entry, x4: Entry)
    requires Families(a, b, c, d)
    ensures "bg" in Parts(a, b, c, d, x0, x1, x2, x3, x4) && Parts(a, b, c, d, x0, x1, x2, x3, x4)["bg"] == x1
  {
    BgOutsideFamilies();
  }

  lemma PartsFont(a: map<string, Entry>, b: map<string, Entry>, c: map<string, Entry>, d: map<string, Entry>,
                  x0: Entry, x1: Entry, x2: Entry, x3: Entry, x4: Entry)
    requires Families(a, b, c, d)
    ensures "font" in Parts(a, b, c, d, x0, x1, x2, x3, x4) && Parts(a, b, c, d, x0, x1, x2, x3, x4)["font"] == x2
  {
    FontOutsideFamilies();
  }

  lemma PartsText(a: map<string, Entry>, b: map<string, Entry>, c: map<string, Entry>, d: map<string, Entry>,
                  x0: Entry, x1: Entry, x2: Entry, x3: Entry, x4: Entry)
    requires Families(a, b, c, d)
    ensures "text" in Parts(a, b, c, d, x0, x1, x2, x3, x4) && Parts(a, b, c, d, x0, x1, x2, x3, x4)["text"] == x3
  {
    TextOutsideFamilies();
  }

  lemma PartsRounded(a: map<string, Entry>, b: map<string, Entry>, c: map<string, Entry>, d: map<string, Entry>,
                     x0: Entry, x1: Entry, x2: Entry, x3: Entry, x4: Entry)
    requires Families(a, b, c, d)
    ensures "rounded" in Parts(a, b, c, d, x0, x1, x2, x3, x4) && Parts(a, b, c, d, x0, x1, x2, x3, x4)["rounded"] == x4
  {
    RoundedOutsideAtoms();
  }

  lemma PartsBorders(a: map<string, Entry>, b: map<string, Entry>, c: map<string, Entry>, d: map<string, Entry>,
                     x0: Entry, x1: Entry, x2: Entry, x3: Entry, x4: Entry)
    requires "font" !in b && "text" !in b && "rounded" !in b
    requires b.Keys !! c.Keys && b.Keys !! d.Keys
    ensures forall k :: k in b ==> k in Parts(a, b, c, d, x0, x1, x2, x3, x4) && Parts(a, b, c, d, x0, x1, x2, x3, x4)[k] == b[k]
  {
  }

  lemma PartsRelative(a: map<string, Entry>, b: map<string, Entry>, c: map<string, Entry>, d: map<string, Entry>,
                      x0: Entry, x1: Entry, x2: Entry, x3: Entry, x4: Entry)
    requires "rounded" !in c && c.Keys !! d.Keys
    ensures forall k :: k in c ==> k in Parts(a, b, c, d, x0, x1, x2, x3, x4) && Parts(a, b, c, d, x0, x1, x2, x3, x4)[k] == c[k]
  {
  }

  lemma PartsAtoms(a: map<string, Entry>, b: map<string, Entry>, c: map<string, Entry>, d: map<string, Entry>,
                 x0: Entry, x1: Entry, x2: Entry, x3: Entry, x4: Entry)
    ensures forall k :: k in d ==> k in Parts(a, b, c, d, x0, x1, x2, x3, x4) && Parts(a, b, c, d, x0, x1, x2, x3, x4)[k] == d[k]
  {
  }

  /** Spreading distributes over erasure, part by part. */
  lemma PartsInert(a: map<string, Entry>, b: map<string, Entry>, c: map<string, Entry>, d: map<string, Entry>,
                   x0: Entry, x1: Entry, x2: Entry, x3: Entry, x4: Entry)
    ensures InertAll(Parts(a, b, c, d, x0, x1, x2, x3, x4))
         == Parts(InertAll(a), InertAll(b), InertAll(c), InertAll(d), Inert(x0), Inert(x1), Inert(x2), Inert(x3), Inert(x4))
  {
    var m0, m1, m2, m3 := map["colors" := x0], map["bg" := x1], map["font" := x2, "text" := x3], map["rounded" := x4];
    assert InertAll(m0) == map["colors" := Inert(x0)];
    assert InertAll(m1) == map["bg" := Inert(x1)];
    assert InertAll(m2) == map["font" := Inert(x2), "text" := Inert(x3)];
    assert InertAll(m3) == map["rounded" := Inert(x4)];
    InertUnion(m0, a);
    InertUnion(m0 + a, m1);
    InertUnion(m0 + a + m1, b);
    InertUnion(m0 + a + m1 + b, m2);
    InertUnion(m0 + a + m1 + b + m2, c);
    InertUnion(m0 + a + m1 + b + m2 + c, m3);
    InertUnion(m0 + a + m1 + b + m2 + c + m3, d);
  }

  /** Two spreads that differ only in the palette-built parts agree on every other key. */
  lemma PartsOutside(a: map<string, Entry>, b: map<string, Entry>, b': map<string, Entry>,
                     c: map<string, Entry>, d: map<string, Entry>,
                     x0: Entry, x0': Entry, x1: Entry, x1': Entry, x2: Entry, x3: Entry, x3': Entry, x4: Entry, k: string)
    requires b.Keys == b'.Keys
    requires k in Parts(a, b, c, d, x0, x1, x2, x3, x4)
    requires k != "colors" && k != "bg" && k != "text" && k !in b
    ensures Parts(a, b, c, d, x0, x1, x2, x3, x4)[k] == Parts(a, b', c, d, x0', x1', x2, x3', x4)[k]
  {
    var head := map["colors" := x0] + a + map["bg" := x1] + b + map["font" := x2, "text" := x3];
    var head' := map["colors" := x0'] + a + map["bg" := x1'] + b' + map["font" := x2, "text" := x3'];
    if k in d || k == "rounded" || k in c {
    } else {
      assert head[k] == head'[k] by {
        if k == "font" {
        } else {
          assert k in a;
        }
      }
    }
  }

  // ---------------------------------------------------------------------------
  // The single top-level names and the category families
  // ---------------------------------------------------------------------------

  /** The single top-level names are outside every category family. */
  lemma ColorsOutsideFamilies()
    ensures "colors" !in LayoutKeys && "colors" !in BorderKeys && "colors" !in RelativeKeys && "colors" !in AtomKeys
  {
  }

  lemma TextOutsideFamilies()
    ensures "text" !in RelativeKeys && "text" !in AtomKeys
  {
  }

  lemma FontOutsideFamilies()
    ensures "font" !in RelativeKeys && "font" !in AtomKeys
  {
  }

  lemma RoundedOutsideAtoms()
    ensures "rounded" !in AtomKeys
  {
  }

  lemma BorderFamilyApart()
    ensures "font" !in BorderKeys && "text" !in BorderKeys && "rounded" !in BorderKeys
    ensures BorderKeys !! AtomKeys
  {
  }

  lemma RelativeFamilyApart()
    ensures "rounded" !in RelativeKeys
  {
  }

  lemma BgOutsideFamilies()
    ensures "bg" !in BorderKeys && "bg" !in RelativeKeys && "bg" !in AtomKeys
  {
  }

  lemma OutsideColorCategories(k: string)
    requires k !in ColorCategories
    ensures k != "colors" && k != "bg" && k != "text" && k !in BorderKeys
  {
  }

  lemma ModeOutsideFamilies()
    ensures "mode" !in LayoutKeys && "mode" !in BorderKeys && "mode" !in RelativeKeys && "mode" !in AtomKeys
  {
  }

  lemma ScreenSizeOutsideFamilies()
    ensures "screenSize" !in LayoutKeys && "screenSize" !in BorderKeys
    ensures "screenSize" !in RelativeKeys && "screenSize" !in AtomKeys
  {
  }

  lemma ScalarsOutsideStyleKeys()
    ensures "mode" !in StyleKeys && "screenSize" !in StyleKeys
  {
    ModeOutsideFamilies();
    ScreenSizeOutsideFamilies();
  }
}
