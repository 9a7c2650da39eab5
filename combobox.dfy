/** The combobox: a popover listing labelled values, filtered by a search
    text, that reports the value chosen to its owner. The selected value
    belongs to the owner and comes in as a parameter. */
module Combobox {
  import opened Wrappers
  import Js
  import Lists

  datatype Entry = Entry(value: string, caption: string)

  /** `handleSelect`: choosing the selected value clears it, choosing any
      other value selects it. A missing current value matches nothing. */
  function Chosen(current: string, value: Option<string>): (r: string)
    ensures value == Some(current) ==> r == ""
    ensures value != Some(current) ==> r == current
  {
    if value == Some(current) then "" else current
  }

  /** Choosing twice from the same start toggles back to nothing. */
  lemma ChooseAgainClears(current: string, value: Option<string>)
    requires value != Some(current)
    ensures Chosen(current, Some(Chosen(current, value))) == ""
  {
  }

  function LabelHas(search: string): Entry -> bool {
    (e: Entry) => Js.Includes(Js.ToLower(e.caption), Js.ToLower(search))
  }

  /** `filteredItems`: every entry for an empty search, else the entries
      whose caption contains the search text, ignoring case. */
  function FilteredItems(items: seq<Entry>, search: string): seq<Entry> {
    if search == "" then items else Lists.Filter(items, LabelHas(search))
  }

  /** The filter keeps the order and keeps exactly the entries whose caption
      holds the search text; an empty search keeps everything. */
  lemma FilteredItemsSpec(items: seq<Entry>, search: string, e: Entry)
    ensures search == "" ==> FilteredItems(items, search) == items
    ensures Lists.IsSubsequence(FilteredItems(items, search), items)
    ensures search != "" ==>
      (e in FilteredItems(items, search) <==>
         e in items && Js.Includes(Js.ToLower(e.caption), Js.ToLower(search)))
  {
    if search == "" {
      Lists.FilterAll(items, Everything());
      Lists.FilterIsSubsequence(items, Everything());
    } else {
      Lists.FilterIsSubsequence(items, LabelHas(search));
      Lists.FilterCount(items, LabelHas(search), e);
      assert e in FilteredItems(items, search) <==> multiset(FilteredItems(items, search))[e] > 0;
    }
  }

  function Everything(): Entry -> bool {
    (e: Entry) => true
  }

  function ValueIs(value: string): Entry -> bool {
    (e: Entry) => e.value == value
  }

  /** The trigger's text: with a value, the caption of the first entry
      holding it (none if no entry does); without one, the placeholder. */
  function TriggerLabel(items: seq<Entry>, value: Option<string>, placeholder: string): (r: Option<string>)
    ensures !(value.Some? && value.value != "") ==> r == Some(placeholder)
  {
    if value.Some? && value.value != "" then
      match Lists.Find(items, ValueIs(value.value))
      case Some(e) => Some(e.caption)
      case None => None
    else Some(placeholder)
  }

  /** With a value, the trigger shows the caption of the first entry with
      that value, or nothing when no entry has it. */
  lemma TriggerLabelSpec(items: seq<Entry>, v: string, placeholder: string)
    requires v != ""
    ensures TriggerLabel(items, Some(v), placeholder).Some? <==>
              exists k :: 0 <= k < |items| && items[k].value == v
    ensures forall k :: (0 <= k < |items| && items[k].value == v &&
              (forall j :: 0 <= j < k ==> items[j].value != v)) ==>
              TriggerLabel(items, Some(v), placeholder) == Some(items[k].caption)
  {
    var r := Lists.FindIndex(items, ValueIs(v));
    if r.None? {
      assert forall k :: 0 <= k < |items| ==> !ValueIs(v)(items[k]);
    }
    forall k | 0 <= k < |items| && items[k].value == v && (forall j :: 0 <= j < k ==> items[j].value != v)
      ensures TriggerLabel(items, Some(v), placeholder) == Some(items[k].caption)
    {
      assert ValueIs(v)(items[k]);
      assert r.Some? && r.value == k;
    }
  }

  /** The popover's own state. */
  class ComboboxState {
    var open: bool
    var searchValue: string

    constructor()
      ensures !open && searchValue == ""
    {
      open := false;
      searchValue := "";
    }

    /** Typing in the search box. */
    method Search(text: string)
      modifies this
      ensures searchValue == text && open == old(open)
    {
      searchValue := text;
    }

    /** Opening or closing the popover; closing also runs the effect that
        resets the search text. */
    method SetOpen(o: bool)
      modifies this
      ensures open == o
      ensures searchValue == if o then old(searchValue) else ""
    {
      open := o;
      if !o {
        searchValue := "";
      }
    }

    /** `handleSelect`: the value to report and a closed popover with an
        empty search. */
    method Select(current: string, value: Option<string>) returns (newValue: string)
      modifies this
      ensures newValue == Chosen(current, value)
      ensures !open && searchValue == ""
    {
      newValue := if value == Some(current) then "" else current;
      SetOpen(false);
    }

    /** The entry shown when nothing matches chooses the search text
        itself. */
    method SelectTyped(value: Option<string>) returns (newValue: string)
      modifies this
      ensures newValue == Chosen(old(searchValue), value)
      ensures !open && searchValue == ""
    {
      newValue := Select(searchValue, value);
    }
  }
}
