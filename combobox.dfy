/** components/ui/combobox.tsx: a searchable picker that also accepts free text. */
module Combobox {
  import opened Text
  import opened Seqs
  import opened Domain
  import opened Effects

  /** What the `options` prop can hold at run time: an array, nothing (the default `[]`
      applies), or some other value despite the declared type. */
  datatype OptionsProp = Given(options: seq<string>) | Absent | NotAnArray

  /** `safeOptions`: the array when there is one, otherwise no options. */
  function SafeOptions(prop: OptionsProp): (r: seq<string>)
    ensures prop.Given? ==> r == prop.options
    ensures !prop.Given? ==> r == []
  {
    match prop
    case Given(options) => options
    case _ => []
  }

  /** `filteredOptions`: the options including the typed text, ignoring case, in order. */
  function FilteredOptions(prop: OptionsProp, inputValue: string): (r: seq<string>)
    ensures forall o | o in r :: o in SafeOptions(prop) && Contains(Lower(o), Lower(inputValue))
    ensures forall i | 0 <= i < |SafeOptions(prop)| && Contains(Lower(SafeOptions(prop)[i]), Lower(inputValue)) ::
              SafeOptions(prop)[i] in r
  {
    Filter(SafeOptions(prop), o => Contains(Lower(o), Lower(inputValue)))
  }

  /** With nothing typed every option is listed, as given; a missing or malformed prop lists none. */
  lemma FilteredOptionsEmptyInput(prop: OptionsProp)
    ensures FilteredOptions(prop, "") == SafeOptions(prop)
    ensures !prop.Given? ==> FilteredOptions(prop, "") == []
  {
    var opts := SafeOptions(prop);
    forall i | 0 <= i < |opts| ensures Contains(Lower(opts[i]), Lower("")) {
      ContainsEmpty(Lower(opts[i]));
    }
    FilterAll(opts, o => Contains(Lower(o), Lower("")));
  }

  /** Filtering keeps the options' order. */
  lemma FilteredOptionsInOrder(prop: OptionsProp, inputValue: string)
    ensures IsSubsequence(FilteredOptions(prop, inputValue), SafeOptions(prop))
  {
    FilterIsSubsequence(SafeOptions(prop), o => Contains(Lower(o), Lower(inputValue)));
  }

  /** The "Add …" entry appears exactly when something is typed and no option matches it. */
  function OffersFreeText(prop: OptionsProp, inputValue: string): (b: bool)
    ensures b <==> inputValue != "" && forall o | o in SafeOptions(prop) :: !Contains(Lower(o), Lower(inputValue))
  {
    var r := FilteredOptions(prop, inputValue);
    assert r != [] ==> r[0] in r;
    r == [] && inputValue != ""
  }

  /** The popover state; `events` records the `onSelect` calls. */
  class ComboboxView {
    var open: bool
    var inputValue: string
    var events: seq<Event>

    constructor ()
      ensures !open && inputValue == "" && events == []
    {
      open := false;
      inputValue := "";
      events := [];
    }

    /** `handleInputChange`. */
    method InputChange(value: string)
      modifies this`inputValue
      ensures inputValue == value
    {
      inputValue := value;
    }

    /** The popover's `onOpenChange`. */
    method SetOpen(value: bool)
      modifies this`open
      ensures open == value
    {
      open := value;
    }

    /** `handleSelect`: an empty value does nothing; any other value is reported, and the
        popover closes with its search text cleared. */
    method Select(selectedValue: string)
      modifies this
      ensures selectedValue == "" ==> open == old(open) && inputValue == old(inputValue) && events == old(events)
      ensures selectedValue != "" ==>
                events == old(events) + [Selected(selectedValue)] && !open && inputValue == ""
    {
      if selectedValue == "" {
        return;
      }
      events := events + [Selected(selectedValue)];
      open := false;
      inputValue := "";
    }
  }
}
