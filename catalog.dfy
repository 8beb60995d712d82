/**
 * The shortcut record shared by every variant of the catalog (the
 * relational schema's numeric ids, the static table's and the document
 * store's string ids) and the catalog queries that the in-memory store and
 * the static catalog module both implement: by platform, by category, and
 * the case-insensitive search over title, description and key string.
 */
module Catalog {
  import opened Wrappers
  import opened Text
  import opened Seqs

  /** A catalog entry; `shortcut` is the key-combination or command text. */
  datatype Shortcut<I> = Shortcut(
    id: I,
    title: string,
    shortcut: string,
    description: string,
    category: string,
    platform: string)

  /** The color class for a category that has no color of its own. */
  const DEFAULT_CATEGORY_COLOR: string := "bg-gray-100 text-gray-800"

  /**
   * The fixed color table both catalog pages carry: the five known
   * category ids map to their classes, anything else to the gray default.
   */
  function TableCategoryColor(category: string): (r: string)
    ensures r != DEFAULT_CATEGORY_COLOR <==> category in KNOWN_CATEGORY_IDS
  {
    if category == "navigation" then "bg-blue-100 text-blue-800"
    else if category == "editing" then "bg-green-100 text-green-800"
    else if category == "debugging" then "bg-red-100 text-red-800"
    else if category == "system" then "bg-purple-100 text-purple-800"
    else if category == "window" then "bg-yellow-100 text-yellow-800"
    else DEFAULT_CATEGORY_COLOR
  }

  /** The five category ids of the catalog, in table order. */
  const KNOWN_CATEGORY_IDS: seq<string> := ["navigation", "editing", "debugging", "system", "window"]

  /** The search test: the lower-cased query occurs in the lower-cased title, description or key string. */
  predicate MatchesQuery<I>(s: Shortcut<I>, query: string)
  {
    var q := Lower(query);
    Includes(Lower(s.title), q) || Includes(Lower(s.description), q) || Includes(Lower(s.shortcut), q)
  }

  function ByPlatform<I(==)>(xs: seq<Shortcut<I>>, platform: string): seq<Shortcut<I>>
  {
    Filter(xs, (s: Shortcut<I>) => s.platform == platform)
  }

  function ByCategory<I(==)>(xs: seq<Shortcut<I>>, category: string): seq<Shortcut<I>>
  {
    Filter(xs, (s: Shortcut<I>) => s.category == category)
  }

  function Search<I(==)>(xs: seq<Shortcut<I>>, query: string): seq<Shortcut<I>>
  {
    Filter(xs, (s: Shortcut<I>) => MatchesQuery(s, query))
  }

  /**
   * `r` is exactly the order-preserving selection of the entries of `xs`
   * that satisfy `p`: a subsequence, every element passes, and every value
   * that passes keeps all of its copies.
   */
  ghost predicate SelectionOf<I>(r: seq<Shortcut<I>>, xs: seq<Shortcut<I>>, p: Shortcut<I> -> bool)
  {
    && IsSubsequence(r, xs)
    && (forall i :: 0 <= i < |r| ==> p(r[i]))
    && (forall i :: 0 <= i < |xs| && p(xs[i]) ==> multiset(r)[xs[i]] == multiset(xs)[xs[i]])
  }

  lemma FilterIsSelection<I>(xs: seq<Shortcut<I>>, p: Shortcut<I> -> bool)
    ensures SelectionOf(Filter(xs, p), xs, p)
  {
    FilterIsSubsequence(xs, p);
    forall i | 0 <= i < |xs| && p(xs[i]) ensures multiset(Filter(xs, p))[xs[i]] == multiset(xs)[xs[i]] {
      FilterMultiplicity(xs, p, xs[i]);
    }
  }

  /** The platform query keeps exactly the entries on that platform, in catalog order. */
  lemma ByPlatformSelects<I>(xs: seq<Shortcut<I>>, platform: string)
    ensures SelectionOf(ByPlatform(xs, platform), xs, (s: Shortcut<I>) => s.platform == platform)
  {
    FilterIsSelection(xs, (s: Shortcut<I>) => s.platform == platform);
  }

  /** The category query keeps exactly the entries in that category, in catalog order. */
  lemma ByCategorySelects<I>(xs: seq<Shortcut<I>>, category: string)
    ensures SelectionOf(ByCategory(xs, category), xs, (s: Shortcut<I>) => s.category == category)
  {
    FilterIsSelection(xs, (s: Shortcut<I>) => s.category == category);
  }

  /** The search keeps exactly the entries that match the query, in catalog order. */
  lemma SearchSelects<I>(xs: seq<Shortcut<I>>, query: string)
    ensures SelectionOf(Search(xs, query), xs, (s: Shortcut<I>) => MatchesQuery(s, query))
  {
    FilterIsSelection(xs, (s: Shortcut<I>) => MatchesQuery(s, query));
  }

  /** Every entry matches the empty query, so searching for "" returns the whole catalog. */
  lemma SearchEmptyIsAll<I>(xs: seq<Shortcut<I>>)
    ensures Search(xs, "") == xs
  {
    forall i | 0 <= i < |xs| ensures MatchesQuery(xs[i], "") {
      IncludesEmpty(Lower(xs[i].title));
    }
    FilterKeepsAll(xs, (s: Shortcut<I>) => MatchesQuery(s, ""));
  }

  /** The search result depends on the query only through its lower-cased form. */
  lemma SearchIgnoresCase<I>(xs: seq<Shortcut<I>>, query: string)
    ensures Search(xs, query) == Search(xs, Lower(query))
  {
    LowerIdempotent(query);
    FilterExtensional(xs, (s: Shortcut<I>) => MatchesQuery(s, query), (s: Shortcut<I>) => MatchesQuery(s, Lower(query)));
  }
}
