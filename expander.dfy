/**
 * The attribute expander (`ssWithValuesForAttribute`) and the relative-size
 * helper (`ssForForAttributeWithRelativeSizes`) of both theme engines.
 */
module Expander {
  import opened Tokens

  /** The object the expander hands to `ss`: every token name to the fragment `{[attribute]: value}`. */
  function Fragments(table: Table, attribute: string): map<string, Style>
  {
    map name | name in table :: map[attribute := table[name]]
  }

  /** `Object.entries(table).map(([name, size]) => ({[name]: {[attribute]: size}}))`, each one-key object as a pair. */
  function MapEntries(entries: seq<(string, Value)>, attribute: string): seq<(string, Style)>
  {
    seq(|entries|, i requires 0 <= i < |entries| => (entries[i].0, map[attribute := entries[i].1]))
  }

  /** `ssWithValuesForAttribute(table, attribute)`, registered by the given constructor. */
  function ForAttribute(sheet: Sheet, table: Table, attribute: string): map<string, Entry>
  {
    SS(sheet, Fragments(table, attribute))
  }

  /** The two literal fragments every relative-size category carries. */
  function RelativeLiterals(attribute: string): map<string, Style>
  {
    map["full" := map[attribute := Str("100%")], "half" := map[attribute := Str("50%")]]
  }

  /** `ssForForAttributeWithRelativeSizes(attribute)`: the token fragments, then `full` and `half`. */
  function WithRelativeSizes(sheet: Sheet, sizes: Table, attribute: string): map<string, Entry>
  {
    ForAttribute(sheet, sizes, attribute) + SS(sheet, RelativeLiterals(attribute))
  }

  /**
   * The map-then-reduce the source writes, run over any listing of the token
   * table, builds exactly `Fragments`: the key order of `Object.entries` does
   * not matter.
   */
  lemma ExpanderReduce(entries: seq<(string, Value)>, table: Table, attribute: string)
    requires IsEntries(entries, table)
    ensures Spread(MapEntries(entries, attribute)) == Fragments(table, attribute)
  {
    var pairs, frags := MapEntries(entries, attribute), Fragments(table, attribute);
    forall k | k in frags
      ensures exists i :: 0 <= i < |pairs| && pairs[i].0 == k
    {
      var i :| 0 <= i < |entries| && entries[i].0 == k;
      assert pairs[i].0 == k;
    }
    SpreadRebuilds(pairs, frags);
  }

  /**
   * Completeness of the expander: one entry per token name and no other, each
   * a fragment holding exactly the one attribute, set to the token's value;
   * the inert run has the same keys, each `undefined`.
   */
  lemma ExpanderComplete(table: Table, attribute: string)
    ensures ForAttribute(Create, table, attribute).Keys == table.Keys
    ensures ForAttribute(Disabled, table, attribute).Keys == table.Keys
    ensures forall name :: name in table ==>
      var f := ForAttribute(Create, table, attribute)[name];
      f.style.Some? && f.style.value.Keys == {attribute} && f.style.value[attribute] == table[name]
    ensures forall name :: name in table ==> ForAttribute(Disabled, table, attribute)[name] == Frag(None)
  {
  }

  /**
   * A relative-size category holds every size token and `full`/`half`; the
   * literals are spread last, so they win over a size token of the same name.
   */
  lemma RelativeSizesContents(sizes: Table, attribute: string)
    ensures WithRelativeSizes(Create, sizes, attribute).Keys == sizes.Keys + {"full", "half"}
    ensures WithRelativeSizes(Create, sizes, attribute)["full"] == Frag(Some(map[attribute := Str("100%")]))
    ensures WithRelativeSizes(Create, sizes, attribute)["half"] == Frag(Some(map[attribute := Str("50%")]))
    ensures forall name :: name in sizes && name != "full" && name != "half" ==>
      WithRelativeSizes(Create, sizes, attribute)[name] == Frag(Some(map[attribute := sizes[name]]))
  {
  }
}
