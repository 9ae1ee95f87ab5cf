/**
 * What the two multi-select components share: an option is a value and a
 * label, the selection is a list of values, and the options shown as
 * selected follow the order of the options.
 */
module Choices {
  import opened Seqs

  datatype Choice = Choice(value: string, title: string)

  /** The selection without a value: every occurrence of x removed, the rest in order. */
  function Without(s: seq<string>, x: string): (r: seq<string>)
    ensures x !in r && |r| <= |s|
    ensures forall y :: y in r <==> y in s && y != x
  {
    if s == [] then []
    else (if s[0] == x then [] else [s[0]]) + Without(s[1..], x)
  }

  /** Removing a value that is absent changes nothing. */
  lemma {:induction false} WithoutAbsent(s: seq<string>, x: string)
    requires x !in s
    ensures Without(s, x) == s
  {
    if s != [] {
      WithoutAbsent(s[1..], x);
      assert s == [s[0]] + s[1..];
    }
  }

  /** Removing a value just appended to a list that lacked it gives the list back. */
  lemma {:induction false} WithoutAppended(s: seq<string>, x: string)
    requires x !in s
    ensures Without(s + [x], x) == s
  {
    if s == [] {
      assert Without([x], x) == [] + Without([], x);
    } else {
      assert (s + [x])[1..] == s[1..] + [x];
      WithoutAppended(s[1..], x);
      assert s == [s[0]] + s[1..];
    }
  }

  /** The options whose value is selected, in the options' order. */
  function SelectedOptions(options: seq<Choice>, selected: seq<string>): (r: seq<Choice>)
    ensures |r| <= |options|
    ensures forall o :: o in r <==> o in options && o.value in selected
  {
    if options == [] then []
    else (if options[0].value in selected then [options[0]] else []) + SelectedOptions(options[1..], selected)
  }

  /** The selected options keep the order of the options, not that of the selection. */
  lemma {:induction false} SelectedOptionsInOrder(options: seq<Choice>, selected: seq<string>)
    ensures Subsequence(SelectedOptions(options, selected), options)
  {
    if options != [] {
      SelectedOptionsInOrder(options[1..], selected);
      var tail := SelectedOptions(options[1..], selected);
      if options[0].value in selected {
        assert SelectedOptions(options, selected) == [options[0]] + tail;
      } else {
        assert SelectedOptions(options, selected) == tail;
        if tail != [] {
          assert tail[0] in tail;
        }
      }
    }
  }

  /** The selection order does not matter, only which values are selected. */
  lemma {:induction false} SelectedOptionsBySet(options: seq<Choice>, s1: seq<string>, s2: seq<string>)
    requires forall v :: v in s1 <==> v in s2
    ensures SelectedOptions(options, s1) == SelectedOptions(options, s2)
  {
    if options != [] {
      SelectedOptionsBySet(options[1..], s1, s2);
    }
  }

  /** The position of the first option with that value, -1 when there is none. */
  function FindIndex(options: seq<Choice>, value: string): (i: int)
    ensures -1 <= i < |options|
    ensures i >= 0 ==> options[i].value == value && forall j | 0 <= j < i :: options[j].value != value
    ensures i == -1 ==> forall j | 0 <= j < |options| :: options[j].value != value
  {
    if options == [] then -1
    else if options[0].value == value then 0
    else var k := FindIndex(options[1..], value); if k == -1 then -1 else k + 1
  }
}
