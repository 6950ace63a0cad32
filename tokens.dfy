/**
 * Values, style fragments and theme nodes shared by both theme engines, the
 * two style-sheet constructors (`StyleSheet.create` and `disabledStyleSheet`),
 * and the `Object.entries(..).reduce(spread, {})` idiom the engines use to
 * build objects.
 */
module Tokens {

  datatype Option<+T> = None | Some(value: T)

  /** A token or literal value. Token values are opaque: nothing computes on them. */
  datatype Value = Num(n: real) | Str(s: string)

  /** A token table (colour palette, spacing scale, radii, ...): name to value. */
  type Table = map<string, Value>

  /** A style fragment: style attribute to value, for example `{width: 44}`. */
  type Style = map<string, Value>

  /** A node of a theme object. */
  datatype Entry =
    | Frag(style: Option<Style>)          // a registered fragment, or `undefined` when inert
    | Group(members: map<string, Entry>)  // a nested object such as the `w` category
    | Palette(colors: Table)              // the raw colour palette under `colors`
    | Scalar(text: string)                // the `mode` and `screenSize` strings

  /** The two fragment constructors the builder can be given as `ss`. */
  datatype Sheet = Create | Disabled

  /** `StyleSheet.create`, taken as the identity on the fragments it registers. */
  function CreateStyleSheet(styles: map<string, Style>): map<string, Entry>
  {
    map k | k in styles :: Frag(Some(styles[k]))
  }

  /** `disabledStyleSheet`: every key of the input, each mapped to `undefined`. */
  function DisabledStyleSheet(styles: map<string, Style>): map<string, Entry>
  {
    map k | k in styles :: Frag(None)
  }

  /** The constructor passed to the builder as `ss`. */
  function SS(sheet: Sheet, styles: map<string, Style>): (r: map<string, Entry>)
    ensures r.Keys == styles.Keys
    ensures forall k :: k in r ==> r[k].Frag?
  {
    match sheet
    case Create => CreateStyleSheet(styles)
    case Disabled => DisabledStyleSheet(styles)
  }

  /**
   * Reference definition of an inert node: the same tree with every fragment
   * replaced by `undefined`; palettes and scalars are left as they are.
   */
  function Inert(e: Entry): Entry
  {
    match e
    case Frag(_) => Frag(None)
    case Group(m) => Group(map k | k in m :: Inert(m[k]))
    case Palette(_) => e
    case Scalar(_) => e
  }

  function InertAll(m: map<string, Entry>): map<string, Entry>
  {
    map k | k in m :: Inert(m[k])
  }

  /** Two nodes have the same shape: the same keys at every level, fragments opposite fragments. */
  predicate SameShape(a: Entry, b: Entry)
  {
    match a
    case Frag(_) => b.Frag?
    case Group(m) =>
      b.Group? && m.Keys == b.members.Keys &&
      forall k :: k in m ==> SameShape(m[k], b.members[k])
    case Palette(_) => a == b
    case Scalar(_) => a == b
  }

  /** The disabled constructor is the live one with every fragment erased. */
  lemma DisabledIsInertCreate(styles: map<string, Style>)
    ensures DisabledStyleSheet(styles) == InertAll(CreateStyleSheet(styles))
    ensures SS(Disabled, styles) == InertAll(SS(Create, styles))
  {
  }

  /** `(styles, [key]) => ({...styles, [key]: undefined})`: every listed key paired with `undefined`. */
  function UndefinedPairs(entries: seq<(string, Style)>): seq<(string, Entry)>
  {
    seq(|entries|, i requires 0 <= i < |entries| => (entries[i].0, Frag(None)))
  }

  /** The reduce `disabledStyleSheet` runs, over any listing of its input, builds `DisabledStyleSheet`. */
  lemma DisabledReduce(entries: seq<(string, Style)>, styles: map<string, Style>)
    requires IsEntries(entries, styles)
    ensures Spread(UndefinedPairs(entries)) == DisabledStyleSheet(styles)
  {
    var pairs, target := UndefinedPairs(entries), DisabledStyleSheet(styles);
    forall k | k in target
      ensures exists i :: 0 <= i < |pairs| && pairs[i].0 == k
    {
      var i :| 0 <= i < |entries| && entries[i].0 == k;
      assert pairs[i].0 == k;
    }
    SpreadRebuilds(pairs, target);
  }

  /** Erasing fragments keeps every key at every level of the tree. */
  lemma {:induction false} InertKeepsShape(e: Entry)
    ensures SameShape(e, Inert(e))
  {
    match e
    case Frag(_) =>
    case Group(m) =>
      forall k | k in m
        ensures SameShape(m[k], Inert(e).members[k])
      {
        InertKeepsShape(m[k]);
      }
    case Palette(_) =>
    case Scalar(_) =>
  }

  /** Erasing is idempotent: an inert tree stays as it is. */
  lemma {:induction false} InertIdempotent(e: Entry)
    ensures Inert(Inert(e)) == Inert(e)
  {
    match e
    case Frag(_) =>
    case Group(m) =>
      forall k | k in m
        ensures Inert(Inert(m[k])) == Inert(m[k])
      {
        InertIdempotent(m[k]);
      }
      assert Inert(Inert(e)).members == Inert(e).members;
    case Palette(_) =>
    case Scalar(_) =>
  }

  /** A family of categories, one `ss` call per category name. */
  function Family(sheet: Sheet, styles: map<string, map<string, Style>>): (r: map<string, Entry>)
    ensures r.Keys == styles.Keys
  {
    map c | c in styles :: Group(SS(sheet, styles[c]))
  }

  /** A family built with the disabled constructor is the live family erased. */
  lemma FamilyInert(styles: map<string, map<string, Style>>)
    ensures InertAll(Family(Create, styles)) == Family(Disabled, styles)
  {
    forall c | c in styles
      ensures Inert(Group(SS(Create, styles[c]))) == Group(SS(Disabled, styles[c]))
    {
      DisabledIsInertCreate(styles[c]);
    }
  }

  /** Erasing a whole map keeps its keys and the shape under each. */
  lemma InertAllKeepsShape(m: map<string, Entry>)
    ensures InertAll(m).Keys == m.Keys
    ensures forall k :: k in m ==> SameShape(m[k], InertAll(m)[k])
  {
    forall k | k in m
      ensures SameShape(m[k], InertAll(m)[k])
    {
      InertKeepsShape(m[k]);
    }
  }

  /** Spreading two `ss` results registers what one call on the spread input would. */
  lemma SpreadSS(sheet: Sheet, a: map<string, Style>, b: map<string, Style>)
    ensures SS(sheet, a) + SS(sheet, b) == SS(sheet, a + b)
  {
  }

  /** Object spread distributes over erasure: `{...a, ...b}` erased is `{...erased a, ...erased b}`. */
  lemma InertUnion(a: map<string, Entry>, b: map<string, Entry>)
    ensures InertAll(a + b) == InertAll(a) + InertAll(b)
  {
  }

  // ---------------------------------------------------------------------------
  // `Object.entries(o).reduce((acc, [k, v]) => ({...acc, [k]: v}), {})`
  // ---------------------------------------------------------------------------

  /** Folds the pairs from left to right, a later pair overriding an earlier one with the same key. */
  function Spread<V>(pairs: seq<(string, V)>): map<string, V>
  {
    if pairs == [] then map[]
    else Spread(pairs[..|pairs| - 1])[pairs[|pairs| - 1].0 := pairs[|pairs| - 1].1]
  }

  /** `pairs` is a listing of `m`, as `Object.entries(m)` is, in some order. */
  ghost predicate IsEntries<V>(pairs: seq<(string, V)>, m: map<string, V>)
  {
    && (forall i :: 0 <= i < |pairs| ==> pairs[i].0 in m && pairs[i].1 == m[pairs[i].0])
    && (forall k :: k in m ==> exists i :: 0 <= i < |pairs| && pairs[i].0 == k)
  }

  /** The keys of a listing. */
  function KeysOf<V>(pairs: seq<(string, V)>): set<string>
  {
    set i | 0 <= i < |pairs| :: pairs[i].0
  }

  /** A fold over a prefix of a listing rebuilds the part of the map it has visited. */
  lemma {:induction false} SpreadPrefix<V>(pairs: seq<(string, V)>, m: map<string, V>)
    requires forall i :: 0 <= i < |pairs| ==> pairs[i].0 in m && pairs[i].1 == m[pairs[i].0]
    ensures Spread(pairs) == map k | k in KeysOf(pairs) && k in m :: m[k]
  {
    if pairs != [] {
      var init := pairs[..|pairs| - 1];
      SpreadPrefix(init, m);
      assert KeysOf(pairs) == KeysOf(init) + {pairs[|pairs| - 1].0};
    }
  }

  /** Reducing any listing of a map by spreading rebuilds exactly that map, whatever the key order. */
  lemma SpreadRebuilds<V>(pairs: seq<(string, V)>, m: map<string, V>)
    requires IsEntries(pairs, m)
    ensures Spread(pairs) == m
  {
    SpreadPrefix(pairs, m);
    assert KeysOf(pairs) == m.Keys;
  }
}
