/**
 * MultiSelectDropdown: the searchable multi-select used for the dashboard
 * KPIs, with a fixed cap of four selected values.
 */
module MultiSelectDropdown {
  import opened Choices

  const Cap := 4
  /** The number of badge and dot colours. */
  const BrandColorCount := 4

  /** handleSelect(value) */
  function HandleSelect(selected: seq<string>, value: string): (r: seq<string>)
  {
    if value in selected then Without(selected, value)
    else if |selected| < Cap then selected + [value]
    else selected
  }

  /** The disabled flag of an item. */
  predicate IsDisabled(selected: seq<string>, value: string)
  {
    value !in selected && |selected| >= Cap
  }

  /** The colour of the dot beside an option: its first position among the options, modulo the colour count. */
  function DotColor(options: seq<Choice>, value: string): (c: int)
    ensures -BrandColorCount < c < BrandColorCount
  {
    var i := FindIndex(options, value);
    // JavaScript's % keeps the sign: findIndex's -1 stays -1
    if i < 0 then i else i % BrandColorCount
  }

  /** A present value is removed; an absent one is appended while fewer than four are selected. */
  lemma SelectToggles(selected: seq<string>, value: string)
    ensures value in selected ==>
      value !in HandleSelect(selected, value) && forall v | v != value :: v in HandleSelect(selected, value) <==> v in selected
    ensures value !in selected && |selected| < Cap ==> HandleSelect(selected, value) == selected + [value]
    ensures value !in selected && |selected| >= Cap ==> HandleSelect(selected, value) == selected
  {
  }

  /** Starting from at most four, the selection never exceeds four. */
  lemma SelectKeepsCap(selected: seq<string>, value: string)
    requires |selected| <= Cap
    ensures |HandleSelect(selected, value)| <= Cap
  {
  }

  /** An item is disabled exactly when selecting it would change nothing. */
  lemma DisabledIffNoChange(selected: seq<string>, value: string)
    ensures IsDisabled(selected, value) <==> HandleSelect(selected, value) == selected
  {
    if value in selected {
      assert value !in HandleSelect(selected, value);
    } else if |selected| < Cap {
      assert |HandleSelect(selected, value)| == |selected| + 1;
    }
  }

  /** With distinct option values, the dot colour of the option at position k is k modulo the colour count. */
  lemma DotColorByPosition(options: seq<Choice>, k: nat)
    requires k < |options| && forall i, j | 0 <= i < j < |options| :: options[i].value != options[j].value
    ensures DotColor(options, options[k].value) == k % BrandColorCount
  {
  }
}
