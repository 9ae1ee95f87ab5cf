/**
 * SimpleMultiSelect: a drop-down of options where clicking an option toggles
 * its value in the selection, with an optional cap on how many may be
 * selected (an unset cap and a cap of 0 both mean no cap).
 */
module SimpleMultiSelect {
  import opened Choices

  /** The number of badge colours. */
  const BrandColorCount := 4

  /** handleSelect(value): the selection onChange receives, or the same one when nothing changes. */
  function HandleSelect(selected: seq<string>, value: string, maxSelection: int): (r: seq<string>)
  {
    if value in selected then Without(selected, value)
    else if maxSelection == 0 || |selected| < maxSelection then selected + [value]
    else selected
  }

  /** isDisabled for an option: unselected, a cap set, and the cap reached. */
  predicate IsDisabled(selected: seq<string>, value: string, maxSelection: int)
  {
    if value !in selected && maxSelection != 0 then |selected| >= maxSelection else false
  }

  /** A click on an option: nothing when it is disabled, handleSelect otherwise. */
  function Click(selected: seq<string>, value: string, maxSelection: int): (r: seq<string>)
  {
    if IsDisabled(selected, value, maxSelection) then selected else HandleSelect(selected, value, maxSelection)
  }

  /** The badge colour of the k-th selected option, unless one colour is used for all. */
  function BadgeColor(k: nat): (c: nat)
    ensures c < BrandColorCount && (k < BrandColorCount ==> c == k)
  {
    k % BrandColorCount
  }

  /** Selecting a selected value removes it, and only it. */
  lemma SelectRemoves(selected: seq<string>, value: string, maxSelection: int)
    requires value in selected
    ensures var r := HandleSelect(selected, value, maxSelection);
      value !in r && forall v | v != value :: v in r <==> v in selected
  {
  }

  /** An unselected value is appended at the end while there is room, and nothing changes at the cap. */
  lemma SelectAppends(selected: seq<string>, value: string, maxSelection: int)
    requires value !in selected
    ensures maxSelection == 0 || |selected| < maxSelection ==> HandleSelect(selected, value, maxSelection) == selected + [value]
    ensures maxSelection != 0 && |selected| >= maxSelection ==> HandleSelect(selected, value, maxSelection) == selected
  {
  }

  /** Starting within the cap, a selection never grows past it. */
  lemma SelectKeepsCap(selected: seq<string>, value: string, maxSelection: int)
    requires maxSelection > 0 && |selected| <= maxSelection
    ensures |HandleSelect(selected, value, maxSelection)| <= maxSelection
  {
  }

  /** An option is disabled exactly when handling a click on it would change nothing. */
  lemma DisabledIffNoChange(selected: seq<string>, value: string, maxSelection: int)
    ensures IsDisabled(selected, value, maxSelection) <==> HandleSelect(selected, value, maxSelection) == selected
  {
    if value in selected {
      assert value !in HandleSelect(selected, value, maxSelection);
    } else if maxSelection == 0 || |selected| < maxSelection {
      assert |HandleSelect(selected, value, maxSelection)| == |selected| + 1;
    }
  }

  /** So a click on a disabled option and handleSelect on it agree: the guard only hides a no-op. */
  lemma ClickIsHandleSelect(selected: seq<string>, value: string, maxSelection: int)
    ensures Click(selected, value, maxSelection) == HandleSelect(selected, value, maxSelection)
  {
    DisabledIffNoChange(selected, value, maxSelection);
  }

  /** Selecting an unselected value and then selecting it again gives the selection back. */
  lemma SelectTwice(selected: seq<string>, value: string, maxSelection: int)
    requires value !in selected && (maxSelection == 0 || |selected| < maxSelection)
    ensures HandleSelect(HandleSelect(selected, value, maxSelection), value, maxSelection) == selected
  {
    WithoutAppended(selected, value);
  }
}
