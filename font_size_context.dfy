/** The font-size setting: five sizes stepped up and down, kept in local
    storage under `fontSize`. Any text may come back from storage, so the
    current size is a string. */
module FontSizeContext {
  const Sizes: seq<string> := ["xs", "sm", "base", "lg", "xl"]
  const StorageKey := "fontSize"

  /** `fontSizes.indexOf(size)`, -1 when the size is not one of them. */
  function IndexOf(size: string): (i: int)
    ensures -1 <= i < |Sizes|
    ensures i >= 0 ==> Sizes[i] == size
    ensures i == -1 <==> size !in Sizes
  {
    if size == "xs" then 0
    else if size == "sm" then 1
    else if size == "base" then 2
    else if size == "lg" then 3
    else if size == "xl" then 4
    else -1
  }

  /** The size `increaseFontSize` moves to: the next one, none past `xl`;
      from an unknown size, the first. */
  function Larger(size: string): string {
    var i := IndexOf(size);
    if i < |Sizes| - 1 then Sizes[i + 1] else size
  }

  /** The size `decreaseFontSize` moves to: the previous one, none below
      `xs`; an unknown size stays. */
  function Smaller(size: string): string {
    var i := IndexOf(size);
    if i > 0 then Sizes[i - 1] else size
  }

  /** Stepping moves one place along the sizes and stops at the ends. */
  lemma StepSpec(size: string)
    ensures size in Sizes ==> Larger(size) in Sizes && Smaller(size) in Sizes
    ensures size in Sizes && size != "xl" ==> IndexOf(Larger(size)) == IndexOf(size) + 1
    ensures size in Sizes && size != "xs" ==> IndexOf(Smaller(size)) == IndexOf(size) - 1
    ensures Larger("xl") == "xl" && Smaller("xs") == "xs"
  {
  }

  /** Up then down, or down then up, comes back, away from the ends. */
  lemma StepRoundTrip(size: string)
    requires size in Sizes
    ensures size != "xl" ==> Smaller(Larger(size)) == size
    ensures size != "xs" ==> Larger(Smaller(size)) == size
  {
  }

  /** A size not among the five steps up to `xs` and does not step down. */
  lemma UnknownSize(size: string)
    requires size !in Sizes
    ensures Larger(size) == "xs" && Smaller(size) == size
  {
  }

  /** The size at start: the saved one when there is a non-empty one,
      else `base`. */
  function InitialSize(storage: map<string, string>): string {
    if StorageKey in storage && storage[StorageKey] != "" then storage[StorageKey] else "base"
  }

  /** The provider's state: the current size and local storage. */
  class FontSizeProvider {
    var fontSize: string
    var storage: map<string, string>

    constructor(storage: map<string, string>)
      ensures fontSize == InitialSize(storage) && this.storage == storage
    {
      fontSize := InitialSize(storage);
      this.storage := storage;
    }

    /** `setFontSize`: storage first, then the state, so the saved size
        is the current one. */
    method SetFontSize(size: string)
      modifies this
      ensures fontSize == size
      ensures storage == old(storage)[StorageKey := size]
    {
      storage := storage[StorageKey := size];
      fontSize := size;
    }

    method IncreaseFontSize()
      modifies this
      ensures fontSize == Larger(old(fontSize))
      ensures storage == if IndexOf(old(fontSize)) < |Sizes| - 1
                         then old(storage)[StorageKey := fontSize] else old(storage)
    {
      var i := IndexOf(fontSize);
      if i < |Sizes| - 1 {
        SetFontSize(Sizes[i + 1]);
      }
    }

    method DecreaseFontSize()
      modifies this
      ensures fontSize == Smaller(old(fontSize))
      ensures storage == if IndexOf(old(fontSize)) > 0
                         then old(storage)[StorageKey := fontSize] else old(storage)
    {
      var i := IndexOf(fontSize);
      if i > 0 {
        SetFontSize(Sizes[i - 1]);
      }
    }
  }
}
