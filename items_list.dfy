/** The article list's rows: the title style, selection and unread marks,
    what a click does, and the thumbnail with its fallback icon. */
module ItemsList {
  import opened Wrappers
  import opened BackendTypes
  import Js

  /** `getTitleColor` of the article list. */
  function TitleColor(isSelected: bool, isUnread: bool): string {
    if isSelected then "text-primary"
    else if isUnread then "text-foreground"
    else "text-muted-foreground"
  }

  /** Selection wins; an unselected title is muted exactly when read. */
  lemma TitleColorSpec(isSelected: bool, isUnread: bool)
    ensures isSelected ==> TitleColor(isSelected, isUnread) == "text-primary"
    ensures !isSelected ==> (TitleColor(isSelected, isUnread) == "text-muted-foreground" <==> !isUnread)
    ensures TitleColor(isSelected, isUnread) == "text-foreground" <==> !isSelected && isUnread
  {
  }

  /** A row is selected when its item has the selected article's id. */
  predicate IsSelected(selected: Option<FeedItem>, item: FeedItem) {
    selected.Some? && selected.value.id == item.id
  }

  predicate IsUnread(item: FeedItem) {
    !item.read
  }

  /** The row's click handler, on the list the page holds: the item is
      selected, marked read on the server (its id as text is returned) and
      marked read in place. The selected article is the same object, so it
      is read too. */
  method Click(items: array<FeedItem>, i: int) returns (selected: FeedItem, readRequest: string)
    requires 0 <= i < items.Length
    modifies items
    ensures items[i] == old(items[i]).(read := true)
    ensures forall k :: 0 <= k < items.Length && k != i ==> items[k] == old(items[k])
    ensures selected == items[i]
    ensures readRequest == Js.IntToString(old(items[i]).id)
  {
    readRequest := Js.IntToString(items[i].id);
    items[i] := items[i].(read := true);
    selected := items[i];
  }

  /** After a click the row is selected and no longer unread, so its title
      is in the primary style, and the id sent reads back as the item's. */
  lemma ClickedRow(item: FeedItem)
    ensures var clicked := item.(read := true);
      IsSelected(Some(clicked), clicked) && !IsUnread(clicked) &&
      TitleColor(IsSelected(Some(clicked), clicked), IsUnread(clicked)) == "text-primary"
    ensures Js.ParseInt(Js.IntToString(item.id)) == Js.Num(item.id)
  {
    Js.ParseIntOfIntToString(item.id);
  }

  /** The default feed icon. */
  const FallbackIcon := "/public/images/feed_icon.png"

  /** The image's first source: the thumbnail, or the icon without one. */
  function ThumbnailSrc(thumbnailUrl: string): (r: string)
    ensures r != ""
    ensures thumbnailUrl != "" ==> r == thumbnailUrl
  {
    if thumbnailUrl != "" then thumbnailUrl else FallbackIcon
  }

  /** The image's source after a load error: the icon, unless the failing
      source already is the icon (the browser reports it resolved, with
      the origin in front). */
  function OnImageError(src: string): string {
    if !Js.Includes(src, FallbackIcon) then FallbackIcon else src
  }

  /** An error always leaves the icon in place, and a second error changes
      nothing, so a missing icon cannot loop; the resolved icon's source is
      kept as it is. */
  lemma ImageErrorSettles(src: string, origin: string)
    ensures Js.Includes(OnImageError(src), FallbackIcon)
    ensures OnImageError(OnImageError(src)) == OnImageError(src)
    ensures OnImageError(origin + FallbackIcon) == origin + FallbackIcon
  {
    Js.IncludesSelf(FallbackIcon);
    var s := origin + FallbackIcon;
    assert Js.OccursAt(s, FallbackIcon, |origin|) by {
      assert s[|origin|..|origin| + |FallbackIcon|] == FallbackIcon;
    }
  }
}
