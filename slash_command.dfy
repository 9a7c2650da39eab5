/** The slash menu of the editor: a highlighted entry moved cyclically by
    the arrow keys, and Enter running the highlighted command. The index is
    a JavaScript number: with no entries, `% 0` makes it NaN. */
module SlashCommand {
  import opened Wrappers
  import Js

  /** An entry of the menu; what its command does to the editor is not
      part of this model. */
  datatype CommandItem = CommandItem(title: string, description: string, searchTerms: seq<string>)

  /** `(i + n - 1) % n`. */
  function UpIndex(i: Js.Number, n: nat): (r: Js.Number)
    ensures n == 0 ==> r == Js.NaN
  {
    match i
    case NaN => Js.NaN
    case Num(k) => Js.Rem(k + n - 1, n)
  }

  /** `(i + 1) % n`. */
  function DownIndex(i: Js.Number, n: nat): (r: Js.Number)
    ensures n == 0 ==> r == Js.NaN
  {
    match i
    case NaN => Js.NaN
    case Num(k) => Js.Rem(k + 1, n)
  }

  predicate InRange(i: Js.Number, n: nat) {
    i.Num? && 0 <= i.n < n
  }

  /** With entries, up and down keep the index among them, stepping one
      place and wrapping at the ends. */
  lemma StepInRange(i: Js.Number, n: nat)
    requires InRange(i, n)
    ensures InRange(UpIndex(i, n), n) && InRange(DownIndex(i, n), n)
    ensures DownIndex(i, n) == Js.Num(if i.n == n - 1 then 0 else i.n + 1)
    ensures UpIndex(i, n) == Js.Num(if i.n == 0 then n - 1 else i.n - 1)
  {
    var k := i.n;
    if k == n - 1 {
      ModOne(k + 1, n);
    } else {
      ModSmall(k + 1, n);
    }
    if k == 0 {
      ModSmall(k + n - 1, n);
    } else {
      ModOne(k + n - 1, n);
    }
  }

  lemma ModSmall(a: int, n: int)
    requires 0 <= a < n
    ensures a % n == a
  {
  }

  lemma ModOne(a: int, n: int)
    requires 0 < n <= a < 2 * n
    ensures a % n == a - n
  {
    var q := a / n;
    assert a == n * q + a % n && 0 <= a % n < n;
    assert n * q > 0 && n * q < 2 * n;
    assert 0 < q < 2;
  }

  /** Up undoes down and down undoes up. */
  lemma StepRoundTrip(i: Js.Number, n: nat)
    requires InRange(i, n)
    ensures UpIndex(DownIndex(i, n), n) == i
    ensures DownIndex(UpIndex(i, n), n) == i
  {
    StepInRange(i, n);
    StepInRange(DownIndex(i, n), n);
    StepInRange(UpIndex(i, n), n);
  }

  /** `selectItem(index)`: the entry at the index, if there is one. */
  function ItemAt(items: seq<CommandItem>, i: Js.Number): (r: Option<CommandItem>)
    ensures r.Some? <==> InRange(i, |items|)
    ensures r.Some? ==> r.value == items[i.n]
  {
    if InRange(i, |items|) then Some(items[i.n]) else None
  }

  /** The keys the menu handles. */
  predicate Handles(key: string) {
    key == "ArrowUp" || key == "ArrowDown" || key == "Enter"
  }

  /** The menu: its entries and the highlighted index. */
  class SlashMenu {
    var items: seq<CommandItem>
    var selectedIndex: Js.Number

    /** With entries, the index is one of them. */
    predicate Valid()
      reads this
    {
      |items| > 0 ==> InRange(selectedIndex, |items|)
    }

    constructor(items: seq<CommandItem>)
      ensures Valid()
      ensures this.items == items && selectedIndex == Js.Num(0)
    {
      this.items := items;
      selectedIndex := Js.Num(0);
    }

    /** New entries reset the index to the first. */
    method SetItems(items: seq<CommandItem>)
      modifies this
      ensures Valid()
      ensures this.items == items && selectedIndex == Js.Num(0)
    {
      this.items := items;
      selectedIndex := Js.Num(0);
    }

    /** Hovering an entry highlights it. */
    method Hover(index: nat)
      requires Valid() && index < |items|
      modifies this
      ensures Valid()
      ensures items == old(items) && selectedIndex == Js.Num(index)
    {
      selectedIndex := Js.Num(index);
    }

    method Up()
      requires Valid()
      modifies this
      ensures Valid()
      ensures items == old(items) && selectedIndex == UpIndex(old(selectedIndex), |items|)
    {
      selectedIndex := UpIndex(selectedIndex, |items|);
      if |items| > 0 {
        StepInRange(old(selectedIndex), |items|);
      }
    }

    method Down()
      requires Valid()
      modifies this
      ensures Valid()
      ensures items == old(items) && selectedIndex == DownIndex(old(selectedIndex), |items|)
    {
      selectedIndex := DownIndex(selectedIndex, |items|);
      if |items| > 0 {
        StepInRange(old(selectedIndex), |items|);
      }
    }

    /** `onKeyDown`: the arrows move the highlight, Enter returns the
        highlighted entry to run, and only those three keys are reported
        as handled. */
    method OnKeyDown(key: string) returns (handled: bool, run: Option<CommandItem>)
      requires Valid()
      modifies this
      ensures Valid()
      ensures handled == Handles(key)
      ensures items == old(items)
      ensures selectedIndex == (if key == "ArrowUp" then UpIndex(old(selectedIndex), |items|)
                                else if key == "ArrowDown" then DownIndex(old(selectedIndex), |items|)
                                else old(selectedIndex))
      ensures run == if key == "Enter" then ItemAt(items, selectedIndex) else None
      ensures run.Some? ==> run.value in items
    {
      run := None;
      if key == "ArrowUp" {
        Up();
        return true, None;
      }
      if key == "ArrowDown" {
        Down();
        return true, None;
      }
      if key == "Enter" {
        run := ItemAt(items, selectedIndex);
        return true, run;
      }
      handled := false;
    }
  }
}
