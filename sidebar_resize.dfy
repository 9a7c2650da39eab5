/** The resizable sidebar: its width, restored from and saved to local
    storage, and the drag that changes it within bounds. Style and DOM
    updates are left out; widths are whole pixels. */
module SidebarResize {
  import opened Wrappers
  import Js

  const DefaultMinWidth := 200
  const DefaultMaxWidth := 400

  /** The width at start: the saved text parsed as an integer (which may be
      NaN), or the default when nothing non-empty is saved. */
  function InitialWidth(storage: map<string, string>, key: string, defaultWidth: int): (r: Js.Number)
    ensures key !in storage || storage[key] == "" ==> r == Js.Num(defaultWidth)
  {
    if key in storage && storage[key] != "" then Js.ParseInt(storage[key]) else Js.Num(defaultWidth)
  }

  /** A width saved by the hook comes back unchanged on the next start. */
  lemma ReloadKeepsWidth(storage: map<string, string>, key: string, defaultWidth: int, w: Js.Number)
    ensures InitialWidth(storage[key := Js.NumberToString(w)], key, defaultWidth) == w
  {
    Js.ParseIntOfNumberToString(w);
  }

  predicate InBounds(width: Js.Number, minWidth: int, maxWidth: int) {
    width.Num? && minWidth <= width.n <= maxWidth
  }

  /** `handleMouseMove`: while resizing, a mouse at `x` within the bounds
      becomes the width; otherwise the width stays. */
  function MoveWidth(width: Js.Number, isResizing: bool, x: int, minWidth: int, maxWidth: int): Js.Number {
    if isResizing && minWidth <= x <= maxWidth then Js.Num(x) else width
  }

  /** The mouse events of a drag. */
  datatype DragEvent = MouseDown | MouseMove(x: int) | MouseUp

  /** The width and the resizing flag after a run of drag events. */
  function Run(width: Js.Number, isResizing: bool, events: seq<DragEvent>, minWidth: int, maxWidth: int)
    : (Js.Number, bool)
    decreases |events|
  {
    if events == [] then (width, isResizing)
    else match events[0]
      case MouseDown => Run(width, true, events[1..], minWidth, maxWidth)
      case MouseUp => Run(width, false, events[1..], minWidth, maxWidth)
      case MouseMove(x) => Run(MoveWidth(width, isResizing, x, minWidth, maxWidth), isResizing,
                               events[1..], minWidth, maxWidth)
  }

  /** No drag leaves the bounds: a width within them stays within them,
      and any other width either stays as it was or is brought within them. */
  lemma {:induction false} RunKeepsBounds(width: Js.Number, isResizing: bool, events: seq<DragEvent>,
                                          minWidth: int, maxWidth: int)
    ensures InBounds(width, minWidth, maxWidth) ==>
              InBounds(Run(width, isResizing, events, minWidth, maxWidth).0, minWidth, maxWidth)
    ensures Run(width, isResizing, events, minWidth, maxWidth).0 == width ||
            InBounds(Run(width, isResizing, events, minWidth, maxWidth).0, minWidth, maxWidth)
    decreases |events|
  {
    if events != [] {
      match events[0]
      case MouseDown => RunKeepsBounds(width, true, events[1..], minWidth, maxWidth);
      case MouseUp => RunKeepsBounds(width, false, events[1..], minWidth, maxWidth);
      case MouseMove(x) =>
        var w := MoveWidth(width, isResizing, x, minWidth, maxWidth);
        RunKeepsBounds(w, isResizing, events[1..], minWidth, maxWidth);
    }
  }

  /** Without a mouse-down first, moves change nothing. */
  lemma {:induction false} MovesNeedMouseDown(width: Js.Number, xs: seq<int>, minWidth: int, maxWidth: int)
    ensures Run(width, false, seq(|xs|, k requires 0 <= k < |xs| => MouseMove(xs[k])), minWidth, maxWidth)
            == (width, false)
    decreases |xs|
  {
    if xs != [] {
      var events := seq(|xs|, k requires 0 <= k < |xs| => MouseMove(xs[k]));
      assert events[1..] == seq(|xs[1..]|, k requires 0 <= k < |xs[1..]| => MouseMove(xs[1..][k]));
      MovesNeedMouseDown(width, xs[1..], minWidth, maxWidth);
    }
  }

  /** The hook's state and the storage it writes. */
  class SidebarResizer {
    const key: string
    const defaultWidth: int
    const minWidth: int
    const maxWidth: int
    var width: Js.Number
    var isResizing: bool
    var storage: map<string, string>

    /** The saved width is the current one. */
    predicate Persisted()
      reads this
    {
      key in storage && storage[key] == Js.NumberToString(width)
    }

    /** `useSidebarResize`: bounds default to 200 and 400, the width is
        restored, and the first run of the effect saves it. */
    constructor(key: string, defaultWidth: int, minWidth: Option<int>, maxWidth: Option<int>,
                saved: map<string, string>)
      ensures this.key == key && this.defaultWidth == defaultWidth
      ensures this.minWidth == minWidth.GetOr(DefaultMinWidth) && this.maxWidth == maxWidth.GetOr(DefaultMaxWidth)
      ensures width == InitialWidth(saved, key, defaultWidth) && !isResizing
      ensures storage == saved[key := Js.NumberToString(width)]
      ensures Persisted()
    {
      this.key := key;
      this.defaultWidth := defaultWidth;
      this.minWidth := minWidth.GetOr(DefaultMinWidth);
      this.maxWidth := maxWidth.GetOr(DefaultMaxWidth);
      var w := InitialWidth(saved, key, defaultWidth);
      width := w;
      isResizing := false;
      storage := saved[key := Js.NumberToString(w)];
    }

    /** The width changes; the effect runs only when it differs and saves
        it. */
    method Store(w: Js.Number)
      requires Persisted()
      modifies this
      ensures width == w && isResizing == old(isResizing)
      ensures storage == old(storage)[key := Js.NumberToString(w)]
      ensures Persisted()
    {
      if w != width {
        width := w;
        storage := storage[key := Js.NumberToString(w)];
      } else {
        assert storage == storage[key := Js.NumberToString(w)];
      }
    }

    /** `handleMouseDown`. */
    method MouseDown()
      modifies this
      ensures isResizing && width == old(width) && storage == old(storage)
    {
      isResizing := true;
    }

    /** `handleMouseUp`. */
    method MouseUp()
      modifies this
      ensures !isResizing && width == old(width) && storage == old(storage)
    {
      isResizing := false;
    }

    /** `handleMouseMove`: the width follows the mouse within the bounds
        while resizing, and a width within the bounds stays within them. */
    method MouseMove(x: int)
      requires Persisted()
      modifies this
      ensures width == MoveWidth(old(width), old(isResizing), x, minWidth, maxWidth)
      ensures isResizing == old(isResizing)
      ensures storage == old(storage)[key := Js.NumberToString(width)]
      ensures Persisted()
      ensures InBounds(old(width), minWidth, maxWidth) ==> InBounds(width, minWidth, maxWidth)
    {
      if !isResizing {
        assert storage == storage[key := Js.NumberToString(width)];
        return;
      }
      if x >= minWidth && x <= maxWidth {
        Store(Js.Num(x));
      } else {
        assert storage == storage[key := Js.NumberToString(width)];
      }
    }

    /** `resetToDefault`: back to the default width, saved. */
    method ResetToDefault()
      requires Persisted()
      modifies this
      ensures width == Js.Num(defaultWidth) && isResizing == old(isResizing)
      ensures storage == old(storage)[key := Js.NumberToString(width)]
      ensures Persisted()
    {
      Store(Js.Num(defaultWidth));
    }

    /** The exported `setSidebarWidth`: any width, unchecked, saved. */
    method SetSidebarWidth(w: Js.Number)
      requires Persisted()
      modifies this
      ensures width == w && isResizing == old(isResizing)
      ensures storage == old(storage)[key := Js.NumberToString(w)]
      ensures Persisted()
    {
      Store(w);
    }
  }
}
