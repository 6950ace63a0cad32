/**
 * The default screen-size classes of src/defaultOptions/ScreenSize.ts: the
 * string enum and the width classifier behind `useScreenSize`.
 */
module ScreenSizes {
  import opened Tokens
  import opened Gate

  /** The enum members, in declaration order. */
  datatype ScreenSize = Mini | X | Max | Tablet | Lg | Xl | Xxl {
    /** The member's string value, which is also its key. */
    function Name(): string
    {
      match this
      case Mini => "mini"
      case X => "x"
      case Max => "max"
      case Tablet => "tablet"
      case Lg => "lg"
      case Xl => "xl"
      case Xxl => "xxl"
    }

    /** The member's position in declaration order. */
    function Rank(): nat
    {
      match this
      case Mini => 0
      case X => 1
      case Max => 2
      case Tablet => 3
      case Lg => 4
      case Xl => 5
      case Xxl => 6
    }
  }

  /** The enum as the object `configurePrim` reads its keys from: every key mapped to itself. */
  const DefaultScreenSizes: map<string, string> := map[
    "mini" := "mini", "x" := "x", "max" := "max", "tablet" := "tablet",
    "lg" := "lg", "xl" := "xl", "xxl" := "xxl"]

  /** The upper bounds of the first six classes, in increasing order. */
  const Bounds: seq<real> := [350.0, 400.0, 500.0, 800.0, 1100.0, 1300.0]

  /** `sizeForWidth(w)`: the first class whose upper bound `w` does not exceed, `xxl` above them all. */
  function SizeForWidth(w: real): ScreenSize
  {
    if w <= 350.0 then Mini
    else if w <= 400.0 then X
    else if w <= 500.0 then Max
    else if w <= 800.0 then Tablet
    else if w <= 1100.0 then Lg
    else if w <= 1300.0 then Xl
    else Xxl
  }

  /** How many of the bounds lie strictly below `w`. */
  function CountBelow(w: real, bounds: seq<real>): (n: nat)
    ensures n <= |bounds|
  {
    if bounds == [] then 0
    else (if bounds[0] < w then 1 else 0) + CountBelow(w, bounds[1..])
  }

  /** A width inside each class: the inverse direction of the classifier. */
  function WidthFor(s: ScreenSize): (w: real)
    ensures SizeForWidth(w) == s
  {
    match s
    case Mini => 0.0
    case X => 400.0
    case Max => 500.0
    case Tablet => 800.0
    case Lg => 1100.0
    case Xl => 1300.0
    case Xxl => 1920.0
  }

  /** The member with a given name, if any. */
  function FromName(name: string): (r: Option<ScreenSize>)
    ensures r.Some? ==> r.value.Name() == name
    ensures r.None? ==> forall s: ScreenSize :: s.Name() != name
  {
    if name == "mini" then Some(Mini)
    else if name == "x" then Some(X)
    else if name == "max" then Some(Max)
    else if name == "tablet" then Some(Tablet)
    else if name == "lg" then Some(Lg)
    else if name == "xl" then Some(Xl)
    else if name == "xxl" then Some(Xxl)
    else None
  }

  // ---------------------------------------------------------------------------
  // The classifier
  // ---------------------------------------------------------------------------

  /** Each class is exactly its band of widths, so the seven bands partition the line. */
  lemma Bands(w: real)
    ensures SizeForWidth(w) == Mini <==> w <= 350.0
    ensures SizeForWidth(w) == X <==> 350.0 < w <= 400.0
    ensures SizeForWidth(w) == Max <==> 400.0 < w <= 500.0
    ensures SizeForWidth(w) == Tablet <==> 500.0 < w <= 800.0
    ensures SizeForWidth(w) == Lg <==> 800.0 < w <= 1100.0
    ensures SizeForWidth(w) == Xl <==> 1100.0 < w <= 1300.0
    ensures SizeForWidth(w) == Xxl <==> 1300.0 < w
  {
  }

  /** The class's position is the number of bounds the width exceeds. */
  lemma RankCountsBounds(w: real)
    ensures SizeForWidth(w).Rank() == CountBelow(w, Bounds)
  {
    var tail := [1300.0];
    assert CountBelow(w, tail) == (if 1300.0 < w then 1 else 0);
    tail := [1100.0] + tail;
    assert CountBelow(w, tail) == (if 1100.0 < w then 1 else 0) + CountBelow(w, [1300.0]);
    tail := [800.0] + tail;
    assert CountBelow(w, tail) == (if 800.0 < w then 1 else 0) + CountBelow(w, [1100.0, 1300.0]);
    tail := [500.0] + tail;
    assert CountBelow(w, tail) == (if 500.0 < w then 1 else 0) + CountBelow(w, [800.0, 1100.0, 1300.0]);
    tail := [400.0] + tail;
    assert CountBelow(w, tail) == (if 400.0 < w then 1 else 0) + CountBelow(w, [500.0, 800.0, 1100.0, 1300.0]);
    tail := [350.0] + tail;
    assert tail == Bounds;
    assert CountBelow(w, tail) == (if 350.0 < w then 1 else 0) + CountBelow(w, [400.0, 500.0, 800.0, 1100.0, 1300.0]);
  }

  /** Counting the bounds below a width is monotone in the width. */
  lemma {:induction false} CountBelowMonotone(w1: real, w2: real, bounds: seq<real>)
    requires w1 <= w2
    ensures CountBelow(w1, bounds) <= CountBelow(w2, bounds)
  {
    if bounds != [] {
      CountBelowMonotone(w1, w2, bounds[1..]);
    }
  }

  /** A wider screen never gets an earlier class. */
  lemma Monotone(w1: real, w2: real)
    requires w1 <= w2
    ensures SizeForWidth(w1).Rank() <= SizeForWidth(w2).Rank()
  {
    RankCountsBounds(w1);
    RankCountsBounds(w2);
    CountBelowMonotone(w1, w2, Bounds);
  }

  /** Every class is the answer for some width. */
  lemma Reachable(s: ScreenSize)
    ensures exists w: real :: SizeForWidth(w) == s
  {
    assert SizeForWidth(WidthFor(s)) == s;
  }

  // ---------------------------------------------------------------------------
  // The enum as breakpoint keys
  // ---------------------------------------------------------------------------

  /** The enum's keys are the seven names, and each value equals its key. */
  lemma EnumKeysAreValues()
    ensures KeysAreValues(DefaultScreenSizes)
    ensures forall s: ScreenSize :: s.Name() in DefaultScreenSizes
    ensures forall k :: k in DefaultScreenSizes ==> FromName(k).Some?
  {
  }

  lemma NameInjective(a: ScreenSize, b: ScreenSize)
    ensures a.Name() == b.Name() ==> a == b
  {
  }

  /**
   * Gating a theme on the default breakpoints with the class of any width
   * makes exactly that class's breakpoint live.
   */
  lemma WidthSelectsOneBreakpoint(mode: ColorMode, w: real, on: map<string, Entry>, off: map<string, Entry>)
    requires on != off
    ensures LiveBreakpoints(Assemble(mode, SizeForWidth(w).Name(), DefaultScreenSizes, on, off), DefaultScreenSizes, on)
         == {SizeForWidth(w).Name()}
  {
    EnumKeysAreValues();
    ExactlyOneLive(mode, SizeForWidth(w).Name(), DefaultScreenSizes, on, off);
  }
}
