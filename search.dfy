/**
  The customer menu search of src/components/customer/SearchBar.tsx: the
  items whose lower-cased name or description contains the lower-cased
  query, once the query has at least two characters besides surrounding
  whitespace; the dropdown shows the first eight.
 */
module Search {
  import opened Common
  import opened Types

  /** The `filter` callback: the name, or else a present description, contains the query. */
  predicate Matches(item: MenuItem, query: string) {
    || Contains(Lower(item.name), Lower(query))
    || (item.description.Some? && Contains(Lower(item.description.value), Lower(query)))
  }

  /**
    `results`. The length test is on the trimmed query; the matching uses
    the query as typed, surrounding whitespace included.
   */
  function Results(menuItems: seq<MenuItem>, query: string): (r: seq<MenuItem>)
    ensures |Trim(query)| < 2 ==> r == []
    ensures forall k :: 0 <= k < |r| ==> r[k] in menuItems && Matches(r[k], query)
    ensures |Trim(query)| >= 2 ==> forall k :: 0 <= k < |menuItems| && Matches(menuItems[k], query) ==> menuItems[k] in r
    ensures IsSubsequence(r, menuItems)
  {
    if |Trim(query)| < 2 then []
    else Filter(menuItems, (item: MenuItem) => Matches(item, query))
  }

  /** `results.slice(0, 8)`: the first eight results, in order. */
  function Displayed(results: seq<MenuItem>): (r: seq<MenuItem>)
    ensures |r| <= 8
    ensures |r| == if |results| < 8 then |results| else 8
    ensures r == results[..|r|]
  {
    results[..if |results| < 8 then |results| else 8]
  }

  /** A needle longer than the text is never found in it. */
  lemma LongerNeedleAbsent(hay: string, needle: string)
    requires |needle| > |hay|
    ensures !Contains(hay, needle)
  {
  }

  /** An item without a description matches only through its name. */
  lemma NoDescriptionMatchesByName(item: MenuItem, query: string)
    requires item.description.None?
    ensures Matches(item, query) <==> Contains(Lower(item.name), Lower(query))
  {
  }

  /** Text that neither starts nor ends with whitespace is its own trim. */
  lemma TrimOfSolid(s: string)
    requires s != [] && !IsJsSpace(s[0]) && !IsJsSpace(s[|s| - 1])
    ensures Trim(s) == s
  {
    assert TrimStart(s) == s;
  }

  /** Trailing blanks do not survive the trim. */
  lemma TrimDropsTrailingSpace(s: string)
    requires s != [] && !IsJsSpace(s[0]) && !IsJsSpace(s[|s| - 1])
    ensures Trim(s + " ") == s
  {
    var q := s + " ";
    assert TrimStart(q) == q;
    assert q[..|q| - 1] == s;
    TrimOfSolid(s);
  }

  /**
    Surrounding whitespace passes the length test yet takes part in the
    match: typing an item's full name followed by a space finds nothing,
    while the name alone finds the item (say "latte " against "latte").
   */
  lemma TrailingSpaceMisses(item: MenuItem)
    requires item.description.None?
    requires |item.name| >= 2 && !IsJsSpace(item.name[0]) && !IsJsSpace(item.name[|item.name| - 1])
    ensures |Trim(item.name + " ")| >= 2
    ensures Results([item], item.name + " ") == []
    ensures Results([item], item.name) == [item]
  {
    TrimDropsTrailingSpace(item.name);
    LongerNeedleAbsent(Lower(item.name), Lower(item.name + " "));
    NameFindsItsItem(item);
  }

  /** A name with at least two characters and no surrounding blanks finds its own item. */
  lemma NameFindsItsItem(item: MenuItem)
    requires |item.name| >= 2 && !IsJsSpace(item.name[0]) && !IsJsSpace(item.name[|item.name| - 1])
    ensures Results([item], item.name) == [item]
  {
    TrimOfSolid(item.name);
    assert Lower(item.name) <= Lower(item.name)[0..];
    SingleMatch(item, item.name);
  }

  /** A lone matching item is found once the query passes the length test. */
  lemma SingleMatch(item: MenuItem, query: string)
    requires |Trim(query)| >= 2 && Matches(item, query)
    ensures Results([item], query) == [item]
  {
    var r := Results([item], query);
    assert item in r;
  }
}
