/**
 * The catalog page backed by the document store: the filter applied to the
 * loaded shortcuts, the category toggle and the category color lookup.
 * Platforms and categories are documents; the catalog's own ids survive
 * only as `originalId`, which is what the filter compares against.
 */
module HomePage {
  import opened Wrappers
  import opened Text
  import opened Seqs
  import opened Catalog
  import ShortcutsData

  datatype Platform = Platform(
    id: string,
    name: string,
    icon: Option<string>,
    description: string,
    originalId: Option<string>)

  datatype Category = Category(id: string, name: string, color: string, originalId: Option<string>)

  /** The page state the filter reads. */
  datatype Filters = Filters(
    searchTerm: string,
    activePlatform: Option<Platform>,
    activeCategories: seq<Category>,
    showFavoritesOnly: bool,
    favorites: seq<string>)

  predicate MatchesPlatform(f: Filters, s: Shortcut<string>)
  {
    f.activePlatform.None? || f.activePlatform.value.originalId == Some(s.platform)
  }

  predicate MatchesCategory(f: Filters, s: Shortcut<string>)
  {
    || |f.activeCategories| == 0
    || exists i :: 0 <= i < |f.activeCategories| && f.activeCategories[i].originalId == Some(s.category)
  }

  predicate MatchesSearch(f: Filters, s: Shortcut<string>)
  {
    f.searchTerm == "" || MatchesQuery(s, f.searchTerm)
  }

  predicate MatchesFavorites(f: Filters, s: Shortcut<string>)
  {
    !f.showFavoritesOnly || s.id in f.favorites
  }

  predicate Passes(f: Filters, s: Shortcut<string>)
  {
    MatchesPlatform(f, s) && MatchesCategory(f, s) && MatchesSearch(f, s) && MatchesFavorites(f, s)
  }

  function PassesTest(f: Filters): Shortcut<string> -> bool
  {
    (s: Shortcut<string>) => Passes(f, s)
  }

  /** `filteredShortcuts`. */
  function FilteredShortcuts(shortcuts: seq<Shortcut<string>>, f: Filters): seq<Shortcut<string>>
  {
    Filter(shortcuts, PassesTest(f))
  }

  /** The result is exactly the loaded shortcuts that pass all four tests, in load order. */
  lemma FilteredSelects(shortcuts: seq<Shortcut<string>>, f: Filters)
    ensures SelectionOf(FilteredShortcuts(shortcuts, f), shortcuts, PassesTest(f))
  {
    FilterIsSelection(shortcuts, PassesTest(f));
  }

  /** The `searchTerm === ''` guard changes nothing: every entry contains the empty query. */
  lemma EmptySearchIsQuery(f: Filters, s: Shortcut<string>)
    ensures MatchesSearch(f, s) <==> MatchesQuery(s, f.searchTerm)
  {
    if f.searchTerm == "" {
      IncludesEmpty(Lower(s.title));
    }
  }

  /**
   * No platform, no active category, an empty search term and
   * favorites-only off let every loaded shortcut through.
   */
  lemma UnrestrictedShowsAll(shortcuts: seq<Shortcut<string>>, f: Filters)
    requires f.activePlatform.None? && f.activeCategories == [] && f.searchTerm == "" && !f.showFavoritesOnly
    ensures FilteredShortcuts(shortcuts, f) == shortcuts
  {
    FilterKeepsAll(shortcuts, PassesTest(f));
  }

  function OnPlatform(p: Platform): Shortcut<string> -> bool
  {
    (s: Shortcut<string>) => p.originalId == Some(s.platform)
  }

  function InFavorites(favorites: seq<string>): Shortcut<string> -> bool
  {
    (s: Shortcut<string>) => s.id in favorites
  }

  /** Choosing a platform keeps, of what the other tests let through, the entries whose platform is its `originalId`. */
  lemma ActivePlatformRestricts(shortcuts: seq<Shortcut<string>>, f: Filters, p: Platform)
    requires f.activePlatform.None?
    ensures FilteredShortcuts(shortcuts, f.(activePlatform := Some(p)))
         == Filter(FilteredShortcuts(shortcuts, f), OnPlatform(p))
  {
    FilterCompose(shortcuts, PassesTest(f), OnPlatform(p));
    FilterExtensional(shortcuts, PassesTest(f.(activePlatform := Some(p))), And(PassesTest(f), OnPlatform(p)));
  }

  /** Turning favorites-only on keeps, of what the other tests let through, the entries whose id is a favorite. */
  lemma FavoritesOnlyRestricts(shortcuts: seq<Shortcut<string>>, f: Filters)
    requires !f.showFavoritesOnly
    ensures FilteredShortcuts(shortcuts, f.(showFavoritesOnly := true))
         == Filter(FilteredShortcuts(shortcuts, f), InFavorites(f.favorites))
  {
    FilterCompose(shortcuts, PassesTest(f), InFavorites(f.favorites));
    FilterExtensional(shortcuts, PassesTest(f.(showFavoritesOnly := true)), And(PassesTest(f), InFavorites(f.favorites)));
  }

  predicate HasCategoryId(cats: seq<Category>, id: string)
  {
    exists i :: 0 <= i < |cats| && cats[i].id == id
  }

  function OtherId(id: string): Category -> bool
  {
    (c: Category) => c.id != id
  }

  /** `handleCategoryToggle`: drops every entry with the category's id if there is one, else appends the category. */
  function ToggleCategory(prev: seq<Category>, category: Category): seq<Category>
  {
    if HasCategoryId(prev, category.id) then Filter(prev, OtherId(category.id))
    else prev + [category]
  }

  /** A toggle flips the toggled id's membership and leaves every other id's membership alone. */
  lemma ToggleFlips(prev: seq<Category>, category: Category)
    ensures HasCategoryId(ToggleCategory(prev, category), category.id) <==> !HasCategoryId(prev, category.id)
    ensures forall id :: id != category.id ==>
      (HasCategoryId(ToggleCategory(prev, category), id) <==> HasCategoryId(prev, id))
  {
    var r := ToggleCategory(prev, category);
    if HasCategoryId(prev, category.id) {
      FilterMembers(prev, OtherId(category.id));
      forall id | id != category.id ensures HasCategoryId(r, id) <==> HasCategoryId(prev, id) {
        if HasCategoryId(prev, id) {
          var i :| 0 <= i < |prev| && prev[i].id == id;
          assert prev[i] in r;
          var j :| 0 <= j < |r| && r[j] == prev[i];
        }
        if HasCategoryId(r, id) {
          var i :| 0 <= i < |r| && r[i].id == id;
          assert r[i] in prev;
        }
      }
    } else {
      assert r[|prev|].id == category.id;
      forall id | id != category.id ensures HasCategoryId(r, id) <==> HasCategoryId(prev, id) {
        if HasCategoryId(r, id) {
          var i :| 0 <= i < |r| && r[i].id == id;
          assert i < |prev| && prev[i].id == id;
        }
        if HasCategoryId(prev, id) {
          var i :| 0 <= i < |prev| && prev[i].id == id;
          assert r[i].id == id;
        }
      }
    }
  }

  /** Toggling a category in and out again restores the list exactly. */
  lemma ToggleTwiceRestores(prev: seq<Category>, category: Category)
    requires !HasCategoryId(prev, category.id)
    ensures ToggleCategory(ToggleCategory(prev, category), category) == prev
  {
    var r := prev + [category];
    assert r[|prev|].id == category.id;
    var p := (c: Category) => c.id != category.id;
    FilterAppend(prev, [category], p);
    FilterKeepsAll(prev, p);
    assert [category][..0] == [];
  }

  /**
   * `getCategoryColor`: the color of the first category document whose
   * document id equals the argument, when it has one; otherwise the fixed
   * light table, otherwise gray.
   */
  function CategoryColor(categories: seq<Category>, category: string): (r: string)
  {
    match FindFirst(categories, (c: Category) => c.id == category)
    case Some(i) => if categories[i].color != "" then categories[i].color else TableCategoryColor(category)
    case None => TableCategoryColor(category)
  }

  /**
   * The argument is a shortcut's category, a catalog id, while the lookup
   * compares it with document ids; when no document id equals the argument
   * the table decides, and for the seeded catalog that gives the static
   * catalog's own color for every category.
   */
  lemma CategoryColorOfUnknownDocId(categories: seq<Category>, category: string)
    requires forall i :: 0 <= i < |categories| ==> categories[i].id != category
    ensures CategoryColor(categories, category) == ShortcutsData.GetCategoryColor(category)
  {
    ShortcutsData.GetCategoryColorIsTable(category);
  }

  /** When a document with that id has a color, that color wins over the table. */
  lemma CategoryColorOfDocument(categories: seq<Category>, i: nat)
    requires i < |categories| && categories[i].color != ""
    requires forall j :: 0 <= j < i ==> categories[j].id != categories[i].id
    ensures CategoryColor(categories, categories[i].id) == categories[i].color
  {
  }
}
