/** The multi-select widget's list logic (src/components/Forms/MultiSelectField.jsx). */
module MultiSelect {
  import Seqs
  import Text

  /** A selectable option. */
  datatype SelectOption = SelectOption(value: string, caption: string)

  /** `toggleOption`: a selected value is removed everywhere, an unselected one appended. */
  function Toggle(selected: seq<string>, v: string): (r: seq<string>)
    ensures v in selected ==> v !in r && forall w :: w != v ==> (w in r <==> w in selected)
    ensures v !in selected ==> r == selected + [v]
  {
    if v in selected then Seqs.Without(selected, v) else selected + [v]
  }

  /** Toggling flips whether `v` is selected and never changes any other value. */
  lemma {:induction false} ToggleFlips(selected: seq<string>, v: string, w: string)
    ensures v in Toggle(selected, v) <==> v !in selected
    ensures w != v ==> (w in Toggle(selected, v) <==> w in selected)
  {
  }

  /** Toggling an unselected value twice restores the list. */
  lemma {:induction false} ToggleTwice(selected: seq<string>, v: string)
    requires v !in selected
    ensures Toggle(Toggle(selected, v), v) == selected
  {
    Seqs.WithoutConcat(selected, [v], v);
    Seqs.WithoutAbsent(selected, v);
    assert Seqs.Without([v], v) == [] by {
      assert [v][1..] == [];
    }
  }

  /** The selected options in option order. */
  function SelectedOptions(options: seq<SelectOption>, selected: seq<string>): (r: seq<SelectOption>)
    ensures forall o :: o in r <==> o in options && o.value in selected
  {
    Seqs.Filter(options, (o: SelectOption) => o.value in selected)
  }

  /** `.map((opt) => opt.label)`. */
  function Captions(options: seq<SelectOption>): (r: seq<string>)
    ensures |r| == |options|
    ensures forall i :: 0 <= i < |options| ==> r[i] == options[i].caption
  {
    seq(|options|, i requires 0 <= i < |options| => options[i].caption)
  }

  /**
   * `selectedLabels`: the labels of the selected options, in option order, joined by ", ".
   * Nothing selected, or only values no option carries, shows "".
   */
  function SelectedLabels(options: seq<SelectOption>, selected: seq<string>): (r: string)
    ensures SelectedOptions(options, selected) == [] ==> r == ""
    ensures selected == [] ==> r == ""
    ensures |SelectedOptions(options, selected)| == 1 ==> r == SelectedOptions(options, selected)[0].caption
  {
    Text.Join(Captions(SelectedOptions(options, selected)), ", ")
  }

  /**
   * The labels follow the option order: the labels chosen from `a + b` are those chosen
   * from `a`, then those chosen from `b`, with one separator when both have some.
   */
  lemma {:induction false} SelectedLabelsConcat(a: seq<SelectOption>, b: seq<SelectOption>, selected: seq<string>)
    ensures SelectedOptions(a, selected) == [] ==> SelectedLabels(a + b, selected) == SelectedLabels(b, selected)
    ensures SelectedOptions(b, selected) == [] ==> SelectedLabels(a + b, selected) == SelectedLabels(a, selected)
    ensures SelectedOptions(a, selected) != [] && SelectedOptions(b, selected) != [] ==>
              SelectedLabels(a + b, selected) == SelectedLabels(a, selected) + ", " + SelectedLabels(b, selected)
  {
    var ca := SelectedOptions(a, selected);
    var cb := SelectedOptions(b, selected);
    Seqs.FilterConcat(a, b, (o: SelectOption) => o.value in selected);
    assert SelectedOptions(a + b, selected) == ca + cb;
    assert Captions(ca + cb) == Captions(ca) + Captions(cb);
    if ca == [] {
      assert ca + cb == cb;
    } else if cb == [] {
      assert ca + cb == ca;
    } else {
      Text.JoinConcat(Captions(ca), Captions(cb), ", ");
    }
  }

  /** Selecting the value of exactly one option picks that option alone. */
  lemma {:induction false} OnlyOneSelected(before: seq<SelectOption>, o: SelectOption, after: seq<SelectOption>)
    requires forall x :: x in before + after ==> x.value != o.value
    ensures SelectedOptions(before + [o] + after, [o.value]) == [o]
  {
    var p := (x: SelectOption) => x.value in [o.value];
    Seqs.FilterConcat(before + [o], after, p);
    Seqs.FilterConcat(before, [o], p);
    Seqs.FilterNonePass(before, p);
    Seqs.FilterNonePass(after, p);
    assert Seqs.Filter([o], p) == [o] by {
      assert [o][1..] == [];
    }
  }

  /** With exactly one option selected, the text is that option's label. */
  lemma {:induction false} SingleSelectionLabel(before: seq<SelectOption>, o: SelectOption, after: seq<SelectOption>)
    requires forall x :: x in before + after ==> x.value != o.value
    ensures SelectedLabels(before + [o] + after, [o.value]) == o.caption
  {
    OnlyOneSelected(before, o, after);
  }
}
