/** The font-size switch: its two buttons and its preview. */
module FontSizeSwitch {
  import opened Wrappers
  import FontSizeContext

  predicate IsMinSize(size: string) {
    FontSizeContext.IndexOf(size) == 0
  }

  predicate IsMaxSize(size: string) {
    FontSizeContext.IndexOf(size) == |FontSizeContext.Sizes| - 1
  }

  /** For a known size, a button is disabled exactly when its step would
      change nothing; the decrease button at `xs`, the increase one at
      `xl`. */
  lemma DisabledIffNoOp(size: string)
    requires size in FontSizeContext.Sizes
    ensures IsMinSize(size) <==> FontSizeContext.Smaller(size) == size
    ensures IsMaxSize(size) <==> FontSizeContext.Larger(size) == size
    ensures IsMinSize(size) <==> size == "xs"
    ensures IsMaxSize(size) <==> size == "xl"
  {
  }

  /** The pixel size of the preview, none for an unknown size. */
  function PreviewPx(size: string): Option<int> {
    if size == "xs" then Some(10)
    else if size == "sm" then Some(12)
    else if size == "base" then Some(14)
    else if size == "lg" then Some(16)
    else if size == "xl" then Some(18)
    else None
  }

  /** The preview grows by two pixels with every step, from 10 to 18. */
  lemma PreviewGrows(size: string)
    ensures PreviewPx(size).Some? <==> size in FontSizeContext.Sizes
    ensures size in FontSizeContext.Sizes ==>
      PreviewPx(size) == Some(10 + 2 * FontSizeContext.IndexOf(size))
    ensures size in FontSizeContext.Sizes && size != "xl" ==>
      PreviewPx(FontSizeContext.Larger(size)).value > PreviewPx(size).value
  {
  }
}
