/**
 * The variant gate and theme assembly of `primTheme`: the live fragment set at
 * the top level, and one copy per breakpoint key that is live only for the
 * current screen size.
 */
module Gate {
  import opened Tokens

  /** The appearance mode returned by `useDarkMode`. */
  datatype ColorMode = Light | Dark {
    function Name(): string
    {
      match this
      case Light => "light"
      case Dark => "dark"
    }
  }

  /** A theme object: `mode`, `screenSize`, the live fragments and one entry per breakpoint. */
  type Theme = map<string, Entry>

  /** The object the reduce over `Object.keys(screenSizes)` builds, as a map. */
  function Breakpoints(screenSizes: map<string, string>, current: string,
                       on: map<string, Entry>, off: map<string, Entry>): map<string, Entry>
  {
    map k | k in screenSizes :: if k == current then Group(on) else Group(off)
  }

  /** The reduce as written, over a listing `keys` of `Object.keys(screenSizes)`. */
  function BreakpointPairs(keys: seq<string>, current: string,
                           on: map<string, Entry>, off: map<string, Entry>): seq<(string, Entry)>
  {
    seq(|keys|, i requires 0 <= i < |keys| =>
      (keys[i], if keys[i] == current then Group(on) else Group(off)))
  }

  /** Whatever order `Object.keys` lists the breakpoints in, the reduce builds `Breakpoints`. */
  lemma BreakpointsReduce(keys: seq<string>, screenSizes: map<string, string>, current: string,
                          on: map<string, Entry>, off: map<string, Entry>)
    requires forall i :: 0 <= i < |keys| ==> keys[i] in screenSizes
    requires forall k :: k in screenSizes ==> k in keys
    ensures Spread(BreakpointPairs(keys, current, on, off)) == Breakpoints(screenSizes, current, on, off)
  {
    var pairs, target := BreakpointPairs(keys, current, on, off), Breakpoints(screenSizes, current, on, off);
    forall k | k in target
      ensures exists i :: 0 <= i < |pairs| && pairs[i].0 == k
    {
      var i :| 0 <= i < |keys| && keys[i] == k;
      assert pairs[i].0 == k;
    }
    SpreadRebuilds(pairs, target);
  }

  /** `{mode, screenSize, ...on, ...breakpoints}`: later spreads win on a shared key. */
  function Assemble(mode: ColorMode, current: string, screenSizes: map<string, string>,
                    on: map<string, Entry>, off: map<string, Entry>): (t: Theme)
    ensures t.Keys == {"mode", "screenSize"} + on.Keys + screenSizes.Keys
    ensures forall k :: k in screenSizes ==> t[k] == (if k == current then Group(on) else Group(off))
    ensures forall k :: k in on && k !in screenSizes ==> t[k] == on[k]
    ensures "mode" !in on && "mode" !in screenSizes ==> t["mode"] == Scalar(mode.Name())
    ensures "screenSize" !in on && "screenSize" !in screenSizes ==> t["screenSize"] == Scalar(current)
  {
    map["mode" := Scalar(mode.Name()), "screenSize" := Scalar(current)]
      + on + Breakpoints(screenSizes, current, on, off)
  }

  /** The breakpoint keys that hold the live set. */
  function LiveBreakpoints(t: Theme, screenSizes: map<string, string>, on: map<string, Entry>): set<string>
  {
    set k | k in screenSizes && k in t && t[k] == Group(on)
  }

  /**
   * When the live and inert sets differ, exactly the current screen size is
   * live if it is a breakpoint key, and no key is live otherwise.
   */
  lemma ExactlyOneLive(mode: ColorMode, current: string, screenSizes: map<string, string>,
                       on: map<string, Entry>, off: map<string, Entry>)
    requires on != off
    ensures LiveBreakpoints(Assemble(mode, current, screenSizes, on, off), screenSizes, on)
         == if current in screenSizes then {current} else {}
  {
    var t := Assemble(mode, current, screenSizes, on, off);
    var live := LiveBreakpoints(t, screenSizes, on);
    forall k | k in live ensures k == current {
      if k != current {
        assert false;
      }
    }
  }

  /** The values of a string-valued enum equal their keys, as `ScreenSize.mini = 'mini'` does. */
  predicate KeysAreValues(screenSizes: map<string, string>)
  {
    forall k :: k in screenSizes ==> screenSizes[k] == k
  }

  /**
   * The gate compares breakpoint KEYS with the hook's enum VALUE. When the enum
   * maps each key to itself, the key whose value the hook returned is the one
   * that is live, and every other key is inert.
   */
  lemma HookValueSelectsItsKey(mode: ColorMode, current: string, screenSizes: map<string, string>,
                               on: map<string, Entry>, off: map<string, Entry>)
    requires KeysAreValues(screenSizes)
    requires on != off
    ensures forall k :: k in screenSizes ==>
      (Assemble(mode, current, screenSizes, on, off)[k] == Group(on) <==> screenSizes[k] == current)
  {
  }

  /**
   * Without that precondition the gate misses: an enum `{small: 'S'}` whose hook
   * returns `'S'` leaves its only breakpoint inert.
   */
  lemma EnumValueMismatchGatesNothing(mode: ColorMode, on: map<string, Entry>, off: map<string, Entry>)
    requires on != off
    ensures var screenSizes := map["small" := "S"];
      screenSizes["small"] == "S" &&
      LiveBreakpoints(Assemble(mode, "S", screenSizes, on, off), screenSizes, on) == {}
  {
    ExactlyOneLive(mode, "S", map["small" := "S"], on, off);
  }
}
