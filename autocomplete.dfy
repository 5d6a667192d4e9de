/** The autocomplete select's lookup and filter (src/components/Forms/AutocompleteSelectField.jsx). */
module Autocomplete {
  import opened Wrappers
  import Seqs
  import Text

  /** An option of the select. */
  datatype Choice = Choice(value: string, caption: string)

  /** `selectedOption`: none for an empty value, else the first option with that value, if any. */
  function SelectedOption(options: seq<Choice>, value: string): (r: Option<Choice>)
    ensures value == "" ==> r.None?
    ensures value != "" && r.Some? ==> (r.value.value == value &&
              exists i :: 0 <= i < |options| && options[i] == r.value && forall j :: 0 <= j < i ==> options[j].value != value)
    ensures value != "" ==> (r.None? <==> forall i :: 0 <= i < |options| ==> options[i].value != value)
  {
    if value == "" then None
    else
      var i := Seqs.FindIndex(options, (o: Choice) => o.value == value);
      if i < 0 then None else Some(options[i])
  }

  /** `filterOptions`: all options for an empty input, else those whose lowercased label contains it. */
  function FilterOptions(options: seq<Choice>, input: string): (r: seq<Choice>)
    ensures input == "" ==> r == options
    ensures input != "" ==> forall o :: o in r <==> o in options && Text.Includes(Text.ToLower(o.caption), Text.ToLower(input))
  {
    if input == "" then options
    else Seqs.Filter(options, (o: Choice) => Text.Includes(Text.ToLower(o.caption), Text.ToLower(input)))
  }

  /** The filter keeps the options' order: it is the options with non-matching ones dropped. */
  lemma {:induction false} FilterKeepsOrder(a: seq<Choice>, b: seq<Choice>, input: string)
    requires input != ""
    ensures FilterOptions(a + b, input) == FilterOptions(a, input) + FilterOptions(b, input)
  {
    Seqs.FilterConcat(a, b, (o: Choice) => Text.Includes(Text.ToLower(o.caption), Text.ToLower(input)));
  }

  /** The value `onChange` reports: the chosen option's value, or "" when cleared. */
  function ReportedValue(chosen: Option<Choice>): (r: string)
    ensures chosen.None? ==> r == ""
    ensures chosen.Some? ==> r == chosen.value.value
  {
    match chosen
    case None => ""
    case Some(c) => c.value
  }

  /** Reporting a chosen option and looking it up again gives back an option with that value. */
  lemma {:induction false} ChooseThenLookUp(options: seq<Choice>, c: Choice)
    requires c in options && c.value != ""
    ensures SelectedOption(options, ReportedValue(Some(c))).Some?
    ensures SelectedOption(options, ReportedValue(Some(c))).value.value == c.value
    ensures SelectedOption(options, ReportedValue(None)).None?
  {
  }
}
