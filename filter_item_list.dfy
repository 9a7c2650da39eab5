/** The scrolling article list: when reaching the bottom asks for more
    items, how the position is kept while a page is appended, and how a
    scroll the program makes itself is told apart from the user's. The two
    timers become events of their own. */
module FilterItemList {
  import opened Wrappers

  /** How close to the bottom, in pixels, counts as the end. */
  const EndMargin := 10

  /** A scroll to `top` reaches the end of a list `scrollHeight` tall shown
      in `clientHeight` pixels. */
  predicate AtEnd(top: int, clientHeight: int, scrollHeight: int) {
    top + clientHeight >= scrollHeight - EndMargin
  }

  /** `handleScroll` calls `onScrollEnd`: the list is mounted, the scroll
      is the user's, it went down, it reached the end, and no page is being
      appended. */
  predicate ScrollEndFires(mounted: bool, internal: bool, lastScrollTop: int, loadingMore: bool,
                           top: int, clientHeight: int, scrollHeight: int) {
    mounted && !internal && top > lastScrollTop && AtEnd(top, clientHeight, scrollHeight) && !loadingMore
  }

  /** The end fires only for a user scroll downwards; scrolling again to
      the same place, or upwards, never fires. */
  lemma ScrollEndFiresSpec(mounted: bool, internal: bool, last: int, loadingMore: bool,
                           top: int, clientHeight: int, scrollHeight: int)
    ensures ScrollEndFires(mounted, internal, last, loadingMore, top, clientHeight, scrollHeight) ==>
      mounted && !internal && !loadingMore && last < top && scrollHeight <= top + clientHeight + EndMargin
    ensures top <= last ==> !ScrollEndFires(mounted, internal, last, loadingMore, top, clientHeight, scrollHeight)
  {
  }

  /** The refs of the list. `restore` is the pending timer of the length
      effect with the position it will put back; `mounted` says whether the
      scroll container exists. */
  class ScrollRefs {
    const mounted: bool
    var scrollTop: int
    var internalChange: bool
    var lastScrollTop: int
    var previousItemsLength: int
    var loadingMore: bool
    var restore: Option<int>

    /** A restore is pending only while a page is being appended, and only
        on a mounted list. */
    predicate Valid()
      reads this
    {
      restore.Some? ==> loadingMore && mounted
    }

    constructor(mounted: bool, itemsLength: int)
      ensures Valid()
      ensures this.mounted == mounted && scrollTop == 0 && !internalChange && lastScrollTop == 0
      ensures previousItemsLength == itemsLength && !loadingMore && restore.None?
    {
      this.mounted := mounted;
      scrollTop := 0;
      internalChange := false;
      lastScrollTop := 0;
      previousItemsLength := itemsLength;
      loadingMore := false;
      restore := None;
    }

    /** `getScrollTop`: the position, or 0 without a container. */
    function GetScrollTop(): (r: int)
      reads this
      ensures !mounted ==> r == 0
      ensures mounted ==> r == scrollTop
    {
      if mounted then scrollTop else 0
    }

    /** `setScrollTop`: moves the list and marks the move as the
        program's until its timer fires. */
    method SetScrollTop(position: int)
      requires Valid()
      modifies this
      ensures Valid()
      ensures mounted ==> scrollTop == position && internalChange
      ensures !mounted ==> scrollTop == old(scrollTop) && internalChange == old(internalChange)
      ensures lastScrollTop == old(lastScrollTop) && previousItemsLength == old(previousItemsLength)
      ensures loadingMore == old(loadingMore) && restore == old(restore)
    {
      if mounted {
        internalChange := true;
        scrollTop := position;
      }
    }

    /** The timer of `setScrollTop` fires. */
    method InternalTimerFires()
      requires Valid()
      modifies this
      ensures Valid()
      ensures !internalChange
      ensures scrollTop == old(scrollTop) && lastScrollTop == old(lastScrollTop)
      ensures previousItemsLength == old(previousItemsLength)
      ensures loadingMore == old(loadingMore) && restore == old(restore)
    {
      internalChange := false;
    }

    /** The effect on the number of items: when it grows a page is being
        appended, and on a mounted list the current position is saved for
        the timer to put back, replacing any earlier pending restore. */
    method OnItemsLength(n: int)
      requires Valid()
      modifies this
      ensures Valid()
      ensures previousItemsLength == n
      ensures n > old(previousItemsLength) ==> loadingMore
      ensures n > old(previousItemsLength) ==> restore == if mounted then Some(scrollTop) else old(restore)
      ensures n <= old(previousItemsLength) ==> loadingMore == old(loadingMore) && restore == old(restore)
      ensures scrollTop == old(scrollTop) && internalChange == old(internalChange)
      ensures lastScrollTop == old(lastScrollTop)
    {
      if n > previousItemsLength {
        loadingMore := true;
        if mounted {
          restore := Some(scrollTop);
        }
      }
      previousItemsLength := n;
    }

    /** The restore timer fires: the saved position comes back and the
        append is over. */
    method RestoreTimerFires()
      requires Valid()
      modifies this
      ensures Valid()
      ensures restore.None?
      ensures old(restore).Some? ==> scrollTop == old(restore).value && !loadingMore
      ensures old(restore).None? ==> scrollTop == old(scrollTop) && loadingMore == old(loadingMore)
      ensures internalChange == old(internalChange) && lastScrollTop == old(lastScrollTop)
      ensures previousItemsLength == old(previousItemsLength)
    {
      if restore.Some? {
        scrollTop := restore.value;
        loadingMore := false;
        restore := None;
      }
    }

    /** The user scrolls the list to `top`; `handleScroll` then reports
        whether it calls `onScrollEnd`. A scroll the program made is
        ignored and does not move `lastScrollTop`. */
    method Scroll(top: int, clientHeight: int, scrollHeight: int) returns (fires: bool)
      requires Valid()
      modifies this
      ensures Valid()
      ensures fires == ScrollEndFires(mounted, old(internalChange), old(lastScrollTop), old(loadingMore),
                                      top, clientHeight, scrollHeight)
      ensures lastScrollTop == if mounted && !old(internalChange) then top else old(lastScrollTop)
      ensures scrollTop == if mounted then top else old(scrollTop)
      ensures internalChange == old(internalChange) && loadingMore == old(loadingMore)
      ensures restore == old(restore) && previousItemsLength == old(previousItemsLength)
    {
      if !mounted {
        return false;
      }
      scrollTop := top;
      if internalChange {
        return false;
      }
      var scrollingDown := top > lastScrollTop;
      fires := scrollingDown && AtEnd(top, clientHeight, scrollHeight) && !loadingMore;
      lastScrollTop := top;
    }
  }
}
