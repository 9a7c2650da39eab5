/** The slash-command extension: its catalogue of eight commands, the
    query that filters it, and its key handler. */
module SlashExtension {
  import opened Wrappers
  import Js
  import Lists
  import SlashCommand

  type CommandItem = SlashCommand.CommandItem

  const Catalogue: seq<CommandItem> := [
    SlashCommand.CommandItem("Text", "Just start writing with plain text.", ["p", "paragraph"]),
    SlashCommand.CommandItem("Heading 1", "Big section heading.", ["title", "big", "large"]),
    SlashCommand.CommandItem("Heading 2", "Medium section heading.", ["subtitle", "medium"]),
    SlashCommand.CommandItem("Heading 3", "Small section heading.", ["subtitle", "small"]),
    SlashCommand.CommandItem("Bullet List", "Create a simple bullet list.", ["unordered", "point"]),
    SlashCommand.CommandItem("Numbered List", "Create a list with numbering.", ["ordered"]),
    SlashCommand.CommandItem("Quote", "Capture a quote.", ["blockquote"]),
    SlashCommand.CommandItem("Code", "Capture a code snippet.", ["codeblock"])
  ]

  /** A command matches when its title or description contains the query,
      ignoring case, or one of its search terms contains the lower-cased
      query. */
  predicate Matches(query: string, item: CommandItem) {
    var q := Js.ToLower(query);
    || Js.Includes(Js.ToLower(item.title), q)
    || Js.Includes(Js.ToLower(item.description), q)
    || (exists k :: 0 <= k < |item.searchTerms| && Js.Includes(item.searchTerms[k], q))
  }

  function MatchesQuery(query: string): CommandItem -> bool {
    (item: CommandItem) => Matches(query, item)
  }

  /** `items({ query })`. */
  function Items(query: string): seq<CommandItem> {
    Lists.Filter(Catalogue, MatchesQuery(query))
  }

  /** The result keeps the catalogue's order, and holds each command
      exactly when it matches. */
  lemma ItemsSpec(query: string, item: CommandItem)
    ensures Lists.IsSubsequence(Items(query), Catalogue)
    ensures item in Items(query) <==> item in Catalogue && Matches(query, item)
  {
    Lists.FilterIsSubsequence(Catalogue, MatchesQuery(query));
    Lists.FilterCount(Catalogue, MatchesQuery(query), item);
    assert item in Items(query) <==> multiset(Items(query))[item] > 0;
  }

  /** An empty query lists all eight commands. */
  lemma EmptyQuery()
    ensures Items("") == Catalogue
    ensures |Items("")| == 8
  {
    forall i | 0 <= i < |Catalogue|
      ensures MatchesQuery("")(Catalogue[i])
    {
      Js.IncludesEmpty(Js.ToLower(Catalogue[i].title));
    }
    Lists.FilterAll(Catalogue, MatchesQuery(""));
  }

  /** Typing more narrows the list: when the shorter query is part of the
      longer one, every command the longer one keeps is kept by the
      shorter. */
  lemma Narrowing(q1: string, q2: string)
    requires Js.Includes(q2, q1)
    ensures Lists.IsSubsequence(Items(q2), Items(q1))
  {
    Js.ToLowerIncludes(q2, q1);
    var l1, l2 := Js.ToLower(q1), Js.ToLower(q2);
    forall i | 0 <= i < |Catalogue| && MatchesQuery(q2)(Catalogue[i])
      ensures MatchesQuery(q1)(Catalogue[i])
    {
      var c := Catalogue[i];
      if Js.Includes(Js.ToLower(c.title), l2) {
        Js.IncludesTransitive(l1, l2, Js.ToLower(c.title));
      } else if Js.Includes(Js.ToLower(c.description), l2) {
        Js.IncludesTransitive(l1, l2, Js.ToLower(c.description));
      } else {
        var k :| 0 <= k < |c.searchTerms| && Js.Includes(c.searchTerms[k], l2);
        Js.IncludesTransitive(l1, l2, c.searchTerms[k]);
      }
    }
    Lists.FilterMonotone(Catalogue, MatchesQuery(q2), MatchesQuery(q1));
  }

  /** The extension's key handler: Escape is reported as handled without
      reaching the menu; any other key gets the menu's answer, if the menu
      gives one. */
  function ExtensionKeyDown(key: string, menuAnswer: Option<bool>): (r: Option<bool>)
    ensures key == "Escape" ==> r == Some(true)
    ensures key != "Escape" ==> r == menuAnswer
  {
    if key == "Escape" then Some(true) else menuAnswer
  }
}
