/**
 * The catalog page backed by the in-memory store's endpoint: a filter over
 * the fetched shortcuts with the active platform and active category ids
 * held as plain strings, the toggle over those strings and the fixed color
 * table. Unlike the document-store page, an empty category list shows
 * nothing here.
 */
module ShortcutsPage {
  import opened Text
  import opened Seqs
  import opened Catalog
  import ShortcutsData

  /** The page state the filter reads. */
  datatype Filters = Filters(
    activePlatform: string,
    searchTerm: string,
    activeCategories: seq<string>,
    showFavoritesOnly: bool,
    favorites: seq<int>)

  /** The page opens on "phpstorm" with every category of its table active and no search. */
  function InitialFilters(favorites: seq<int>): (f: Filters)
    ensures f.activePlatform == "phpstorm" && f.searchTerm == "" && !f.showFavoritesOnly
    ensures forall c :: c in f.activeCategories <==> c in KNOWN_CATEGORY_IDS
  {
    Filters("phpstorm", "", KNOWN_CATEGORY_IDS, false, favorites)
  }

  predicate Passes(f: Filters, s: Shortcut<int>)
  {
    && s.platform == f.activePlatform
    && s.category in f.activeCategories
    && (f.searchTerm == "" || MatchesQuery(s, f.searchTerm))
    && (!f.showFavoritesOnly || s.id in f.favorites)
  }

  function PassesTest(f: Filters): Shortcut<int> -> bool
  {
    (s: Shortcut<int>) => Passes(f, s)
  }

  /** `filteredShortcuts`. */
  function FilteredShortcuts(shortcuts: seq<Shortcut<int>>, f: Filters): seq<Shortcut<int>>
  {
    Filter(shortcuts, PassesTest(f))
  }

  /** The result is exactly the fetched shortcuts that pass all four tests, in fetch order. */
  lemma FilteredSelects(shortcuts: seq<Shortcut<int>>, f: Filters)
    ensures SelectionOf(FilteredShortcuts(shortcuts, f), shortcuts, PassesTest(f))
  {
    FilterIsSelection(shortcuts, PassesTest(f));
  }

  /** An empty list of active categories shows nothing. */
  lemma NoCategoriesShowsNothing(shortcuts: seq<Shortcut<int>>, f: Filters)
    requires f.activeCategories == []
    ensures FilteredShortcuts(shortcuts, f) == []
  {
    FilterKeepsNone(shortcuts, PassesTest(f));
  }

  function InCategories(categories: seq<string>): Shortcut<int> -> bool
  {
    (s: Shortcut<int>) => s.category in categories
  }

  /**
   * With an empty search term and favorites-only off, the result is the
   * active platform's shortcuts, in fetch order, whose category is active.
   */
  lemma UnrestrictedIsPlatformAndCategory(shortcuts: seq<Shortcut<int>>, f: Filters)
    requires f.searchTerm == "" && !f.showFavoritesOnly
    ensures FilteredShortcuts(shortcuts, f)
         == Filter(ByPlatform(shortcuts, f.activePlatform), InCategories(f.activeCategories))
  {
    var onPlatform := (s: Shortcut<int>) => s.platform == f.activePlatform;
    FilterCompose(shortcuts, onPlatform, InCategories(f.activeCategories));
    FilterExtensional(shortcuts, PassesTest(f), And(onPlatform, InCategories(f.activeCategories)));
  }

  /** On first render, the page shows every "phpstorm" shortcut in one of its five categories. */
  lemma InitialShowsPhpstorm(shortcuts: seq<Shortcut<int>>, favorites: seq<int>)
    ensures FilteredShortcuts(shortcuts, InitialFilters(favorites))
         == Filter(ByPlatform(shortcuts, "phpstorm"), InCategories(KNOWN_CATEGORY_IDS))
  {
    UnrestrictedIsPlatformAndCategory(shortcuts, InitialFilters(favorites));
  }

  /** `handleCategoryToggle`: drops the id if present, else appends it. */
  function ToggleCategory(prev: seq<string>, categoryId: string): seq<string>
  {
    if categoryId in prev then Remove(prev, categoryId) else prev + [categoryId]
  }

  /** A toggle flips the toggled id's membership and leaves every other id's membership alone. */
  lemma ToggleFlips(prev: seq<string>, categoryId: string)
    ensures categoryId in ToggleCategory(prev, categoryId) <==> categoryId !in prev
    ensures forall id :: id != categoryId ==> (id in ToggleCategory(prev, categoryId) <==> id in prev)
  {
    RemoveMembers(prev, categoryId);
  }

  /** Toggling an id in and out again restores the list exactly. */
  lemma ToggleTwiceRestores(prev: seq<string>, categoryId: string)
    requires categoryId !in prev
    ensures ToggleCategory(ToggleCategory(prev, categoryId), categoryId) == prev
  {
    RemoveAppended(prev, categoryId);
  }

  /** `getCategoryColor`: the page's table agrees with the static catalog's category colors, gray for the rest. */
  lemma CategoryColorMatchesCatalog(category: string)
    ensures TableCategoryColor(category) == ShortcutsData.GetCategoryColor(category)
    ensures category !in KNOWN_CATEGORY_IDS ==> TableCategoryColor(category) == DEFAULT_CATEGORY_COLOR
  {
    ShortcutsData.GetCategoryColorIsTable(category);
  }
}
