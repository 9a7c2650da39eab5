/** The sidebar's navigation groups: which entry is active for the current
    location, which icon a sub-entry shows, the key of each entry and how
    it is drawn. */
module NavGroup {
  import opened Wrappers
  import Js
  import Lists

  /** An entry under a collapsible entry. */
  datatype SubItem = SubItem(title: string, url: string, iconUrl: Option<string>, badge: Option<string>)

  /** An entry of a group: a link has a url, a collapsible entry has
      sub-entries (and, for folders, a url too). */
  datatype NavItem = NavItem(
    title: string,
    url: Option<string>,
    badge: Option<string>,
    iconUrl: Option<string>,
    items: Option<seq<SubItem>>)

  /** `href.split('?')[0]`: the location without its query. */
  function PathPart(href: string): string {
    Js.Split(href, '?')[0]
  }

  /** The part before the first `?`, or the whole location without one. */
  lemma PathPartSpec(href: string)
    ensures '?' !in href ==> PathPart(href) == href
    ensures '?' in href ==> PathPart(href) == href[..Js.IndexOfChar(href, '?')]
    ensures '?' !in PathPart(href)
  {
  }

  function SubUrlIs(href: string): SubItem -> bool {
    (s: SubItem) => s.url == href
  }

  /** `checkIsActive`: the location is the entry's url, with or without
      its query, or exactly the url of one of its sub-entries. */
  function CheckIsActive(href: string, item: NavItem): bool {
    || item.url == Some(href)
    || item.url == Some(PathPart(href))
    || (item.items.Some? && |Lists.Filter(item.items.value, SubUrlIs(href))| > 0)
  }

  /** The three ways an entry is active, with the sub-entries compared
      without stripping the query. */
  lemma CheckIsActiveSpec(href: string, item: NavItem)
    ensures CheckIsActive(href, item) <==>
      || item.url == Some(href)
      || item.url == Some(PathPart(href))
      || (item.items.Some? && exists k :: 0 <= k < |item.items.value| && item.items.value[k].url == href)
  {
    if item.items.Some? {
      var subs := item.items.value;
      if exists k :: 0 <= k < |subs| && subs[k].url == href {
        var k :| 0 <= k < |subs| && subs[k].url == href;
        Lists.FilterCount(subs, SubUrlIs(href), subs[k]);
      } else {
        Lists.FilterNone(subs, SubUrlIs(href));
      }
    }
  }

  /** A link stays active whatever query the location carries. */
  lemma ActiveWithQuery(path: string, query: string, item: NavItem)
    requires '?' !in path && item.url == Some(path)
    ensures CheckIsActive(path, item)
    ensures CheckIsActive(path + "?" + query, item)
  {
    var href := path + "?" + query;
    assert href[|path|] == '?';
    assert '?' in href;
    var i := Js.IndexOfChar(href, '?');
    assert forall k :: 0 <= k < |path| ==> href[k] == path[k];
    assert i == |path|;
    assert href[..i] == path;
  }

  /** Without a query, the location with its query stripped is the
      location itself. */
  lemma NoQueryCoincide(href: string, item: NavItem)
    requires '?' !in href
    ensures (item.url == Some(href)) == (item.url == Some(PathPart(href)))
  {
  }

  /** `getSubItemIcon`: the sub-entry's own icon, else its parent's, else
      none; an empty url counts as none. */
  function SubItemIcon(sub: SubItem, parent: NavItem): (r: Option<string>)
    ensures r.Some? ==> r.value != ""
    ensures r.Some? ==> r == sub.iconUrl || r == parent.iconUrl
  {
    if sub.iconUrl.Some? && sub.iconUrl.value != "" then sub.iconUrl
    else if parent.iconUrl.Some? && parent.iconUrl.value != "" then parent.iconUrl
    else None
  }

  /** The own icon wins; the parent's is shown only without one. */
  lemma SubItemIconPrecedence(sub: SubItem, parent: NavItem)
    ensures sub.iconUrl.Some? && sub.iconUrl.value != "" ==> SubItemIcon(sub, parent) == sub.iconUrl
    ensures (!(sub.iconUrl.Some? && sub.iconUrl.value != "") && parent.iconUrl.Some? && parent.iconUrl.value != "")
            ==> SubItemIcon(sub, parent) == parent.iconUrl
    ensures SubItemIcon(sub, parent).None? <==>
              !(sub.iconUrl.Some? && sub.iconUrl.value != "") && !(parent.iconUrl.Some? && parent.iconUrl.value != "")
  {
  }

  /** A React key: a text or the position in the list. */
  datatype Key = TextKey(text: string) | IndexKey(index: nat)

  /** The key of an entry: `title-url` for a titled entry (a missing url
      is written `undefined`), else its index. */
  function ItemKey(item: NavItem, index: nat): (k: Key)
    ensures item.title != "" <==> k.TextKey?
    ensures item.title == "" ==> k == IndexKey(index)
  {
    if item.title != "" then TextKey(item.title + "-" + item.url.GetOr("undefined"))
    else IndexKey(index)
  }

  /** Titled entries whose titles hold no `-` have different keys as soon
      as their titles or urls differ. */
  lemma ItemKeyInjective(a: NavItem, b: NavItem, i: nat, j: nat)
    requires a.title != "" && b.title != ""
    requires '-' !in a.title && '-' !in b.title
    requires ItemKey(a, i) == ItemKey(b, j)
    ensures a.title == b.title && a.url.GetOr("undefined") == b.url.GetOr("undefined")
  {
    var s := a.title + "-" + a.url.GetOr("undefined");
    assert s == b.title + "-" + b.url.GetOr("undefined");
    assert s[|a.title|] == '-' && s[|b.title|] == '-';
    assert forall k :: 0 <= k < |a.title| ==> s[k] == a.title[k];
    assert forall k :: 0 <= k < |b.title| ==> s[k] == b.title[k];
    assert a.title == s[..|a.title|] && b.title == s[..|b.title|];
    assert a.url.GetOr("undefined") == s[|a.title| + 1..];
  }

  datatype RenderKind = Link | Dropdown | Collapsible

  /** How an entry is drawn: a link without sub-entries, a dropdown in the
      collapsed sidebar, a collapsible section otherwise. An empty list of
      sub-entries still counts as sub-entries. */
  function Render(item: NavItem, collapsed: bool): (r: RenderKind)
    ensures r == Link <==> item.items.None?
    ensures r == Dropdown <==> item.items.Some? && collapsed
    ensures r == Collapsible <==> item.items.Some? && !collapsed
  {
    if item.items.None? then Link
    else if collapsed then Dropdown
    else Collapsible
  }
}
