/**
 * The static catalog module of the client: the platform and category
 * tables, the shortcut table, and the lookups and queries over them.
 */
module ShortcutsData {
  import opened Wrappers
  import opened Seqs
  import opened Catalog

  datatype Platform = Platform(id: string, name: string, icon: string, description: string)

  datatype Category = Category(id: string, name: string, color: string)

  const PLATFORMS: seq<Platform> := [
      Platform("phpstorm", "PHPStorm", "fab fa-php", "Essential keyboard shortcuts for efficient PHPStorm development"),
      Platform("archlinux", "Arch Linux", "fab fa-linux", "Essential terminal and system shortcuts for Arch Linux"),
      Platform("ubuntu", "Ubuntu", "fab fa-ubuntu", "Essential keyboard shortcuts and commands for Ubuntu")
    ]

  const CATEGORIES: seq<Category> := [
      Category("navigation", "Navigation", "bg-blue-100 text-blue-800"),
      Category("editing", "Editing", "bg-green-100 text-green-800"),
      Category("debugging", "Debugging", "bg-red-100 text-red-800"),
      Category("system", "System", "bg-purple-100 text-purple-800"),
      Category("window", "Window Management", "bg-yellow-100 text-yellow-800")
    ]

  // The shortcut table, written as its three per-platform sections in table order.
  const PHPSTORM_SHORTCUTS: seq<Shortcut<string>> := [
      Shortcut("phpstorm-quick-open", "Quick Open File", "Ctrl+Shift+N", "Quickly open any file in your project", "navigation", "phpstorm"),
      Shortcut("phpstorm-go-declaration", "Go to Declaration", "Ctrl+B", "Navigate to the declaration of a symbol", "navigation", "phpstorm"),
      Shortcut("phpstorm-find-files", "Find in Files", "Ctrl+Shift+F", "Search for text across all project files", "navigation", "phpstorm"),
      Shortcut("phpstorm-recent-files", "Recent Files", "Ctrl+E", "Show recently opened files", "navigation", "phpstorm"),
      Shortcut("phpstorm-duplicate-line", "Duplicate Line", "Ctrl+D", "Duplicate the current line or selection", "editing", "phpstorm"),
      Shortcut("phpstorm-multiple-cursors", "Multiple Cursors", "Alt+Click", "Add multiple cursors for simultaneous editing", "editing", "phpstorm"),
      Shortcut("phpstorm-comment-line", "Comment Line", "Ctrl+/", "Toggle line comment", "editing", "phpstorm"),
      Shortcut("phpstorm-reformat-code", "Reformat Code", "Ctrl+Alt+L", "Automatically format code according to style settings", "editing", "phpstorm"),
      Shortcut("phpstorm-toggle-breakpoint", "Toggle Breakpoint", "Ctrl+F8", "Toggle breakpoint at current line", "debugging", "phpstorm"),
      Shortcut("phpstorm-step-over", "Step Over", "F8", "Step over to the next line in debugging", "debugging", "phpstorm"),
      Shortcut("phpstorm-step-into", "Step Into", "F7", "Step into function calls during debugging", "debugging", "phpstorm"),
      Shortcut("phpstorm-resume-program", "Resume Program", "F9", "Continue program execution", "debugging", "phpstorm")
    ]

  const ARCHLINUX_SHORTCUTS: seq<Shortcut<string>> := [
      Shortcut("arch-package-update", "Package Update", "sudo pacman -Syu", "Update all installed packages", "system", "archlinux"),
      Shortcut("arch-install-package", "Install Package", "sudo pacman -S [package]", "Install a specific package", "system", "archlinux"),
      Shortcut("arch-remove-package", "Remove Package", "sudo pacman -R [package]", "Remove a package", "system", "archlinux"),
      Shortcut("arch-search-package", "Search Package", "pacman -Ss [query]", "Search for packages in repositories", "system", "archlinux"),
      Shortcut("arch-open-terminal", "Open Terminal", "Ctrl+Alt+T", "Open a new terminal window", "window", "archlinux"),
      Shortcut("arch-switch-desktop", "Switch Desktop", "Ctrl+Alt+Arrow", "Switch between virtual desktops", "window", "archlinux"),
      Shortcut("arch-directory-nav", "Directory Navigation", "cd ..", "Go up one directory level", "navigation", "archlinux"),
      Shortcut("arch-list-files", "List Files", "ls -la", "List all files with detailed information", "navigation", "archlinux")
    ]

  const UBUNTU_SHORTCUTS: seq<Shortcut<string>> := [
      Shortcut("ubuntu-update-system", "Update System", "sudo apt update && sudo apt upgrade", "Update package list and upgrade all packages", "system", "ubuntu"),
      Shortcut("ubuntu-install-package", "Install Package", "sudo apt install [package]", "Install a specific package", "system", "ubuntu"),
      Shortcut("ubuntu-remove-package", "Remove Package", "sudo apt remove [package]", "Remove a package", "system", "ubuntu"),
      Shortcut("ubuntu-search-package", "Search Package", "apt search [query]", "Search for packages in repositories", "system", "ubuntu"),
      Shortcut("ubuntu-show-applications", "Show Applications", "Super", "Open activities overview and application launcher", "window", "ubuntu"),
      Shortcut("ubuntu-switch-windows", "Switch Windows", "Alt+Tab", "Switch between open applications", "window", "ubuntu"),
      Shortcut("ubuntu-lock-screen", "Lock Screen", "Super+L", "Lock the screen", "window", "ubuntu"),
      Shortcut("ubuntu-take-screenshot", "Take Screenshot", "PrtScr", "Take a screenshot of the entire screen", "window", "ubuntu")
    ]

  const SHORTCUTS_DATA: seq<Shortcut<string>> := PHPSTORM_SHORTCUTS + ARCHLINUX_SHORTCUTS + UBUNTU_SHORTCUTS

  /** `getCategoryColor`: the color of the first category with that id, else the gray default. */
  function GetCategoryColor(category: string): (r: string)
    ensures forall i :: 0 <= i < |CATEGORIES| && CATEGORIES[i].id == category ==> r == CATEGORIES[i].color
    ensures (forall i :: 0 <= i < |CATEGORIES| ==> CATEGORIES[i].id != category) ==> r == DEFAULT_CATEGORY_COLOR
  {
    match FindFirst(CATEGORIES, (c: Category) => c.id == category)
    case Some(i) => if CATEGORIES[i].color != "" then CATEGORIES[i].color else DEFAULT_CATEGORY_COLOR
    case None => DEFAULT_CATEGORY_COLOR
  }

  /** The category table and the fixed color table of the catalog pages agree on every category. */
  lemma GetCategoryColorIsTable(category: string)
    ensures GetCategoryColor(category) == TableCategoryColor(category)
  {
    if category in KNOWN_CATEGORY_IDS {
      var k :| 0 <= k < |KNOWN_CATEGORY_IDS| && KNOWN_CATEGORY_IDS[k] == category;
      assert CATEGORIES[k].id == category;
    } else {
      assert forall i :: 0 <= i < |CATEGORIES| ==> CATEGORIES[i].id != category;
    }
  }

  /** `getPlatformData`: the platform with that id, or undefined. */
  function GetPlatformData(platformId: string): (r: Option<Platform>)
    ensures r.Some? ==> r.value in PLATFORMS && r.value.id == platformId
    ensures r.None? <==> forall i :: 0 <= i < |PLATFORMS| ==> PLATFORMS[i].id != platformId
  {
    match FindFirst(PLATFORMS, (p: Platform) => p.id == platformId)
    case Some(i) => Some(PLATFORMS[i])
    case None => None
  }

  function GetShortcutsByPlatform(platform: string): seq<Shortcut<string>>
  {
    ByPlatform(SHORTCUTS_DATA, platform)
  }

  function GetShortcutsByCategory(category: string): seq<Shortcut<string>>
  {
    ByCategory(SHORTCUTS_DATA, category)
  }

  function SearchShortcuts(query: string): seq<Shortcut<string>>
  {
    Search(SHORTCUTS_DATA, query)
  }

  /** `getShortcutsByPlatform` keeps exactly the table entries on that platform, in table order. */
  lemma GetShortcutsByPlatformSelects(platform: string)
    ensures SelectionOf(GetShortcutsByPlatform(platform), SHORTCUTS_DATA, (s: Shortcut<string>) => s.platform == platform)
  {
    ByPlatformSelects(SHORTCUTS_DATA, platform);
  }

  /** `getShortcutsByCategory` keeps exactly the table entries in that category, in table order. */
  lemma GetShortcutsByCategorySelects(category: string)
    ensures SelectionOf(GetShortcutsByCategory(category), SHORTCUTS_DATA, (s: Shortcut<string>) => s.category == category)
  {
    ByCategorySelects(SHORTCUTS_DATA, category);
  }

  /** `searchShortcuts` keeps exactly the table entries matching the query, in table order. */
  lemma SearchShortcutsSelects(query: string)
    ensures SelectionOf(SearchShortcuts(query), SHORTCUTS_DATA, (s: Shortcut<string>) => MatchesQuery(s, query))
  {
    SearchSelects(SHORTCUTS_DATA, query);
  }

  /** No id of `xs` occurs twice. */
  predicate IdsUnique(xs: seq<Shortcut<string>>)
  {
    forall i, j :: 0 <= i < j < |xs| ==> xs[i].id != xs[j].id
  }

  /** Every id of `xs` is non-empty and starts with `c`. */
  predicate IdsStartWith(xs: seq<Shortcut<string>>, c: char)
  {
    forall i :: 0 <= i < |xs| ==> |xs[i].id| > 0 && xs[i].id[0] == c
  }

  lemma {:induction false} IdsUniqueConcat(a: seq<Shortcut<string>>, b: seq<Shortcut<string>>, ca: char, cb: char)
    requires IdsUnique(a) && IdsUnique(b) && IdsStartWith(a, ca) && IdsStartWith(b, cb) && ca != cb
    ensures IdsUnique(a + b)
  {
    forall i, j | 0 <= i < j < |a + b| ensures (a + b)[i].id != (a + b)[j].id {
      if i < |a| && j >= |a| {
        assert (a + b)[i].id[0] == ca;
        assert (a + b)[j].id[0] == cb;
      }
    }
  }

  lemma {:induction false} IdsStartWithConcat(a: seq<Shortcut<string>>, b: seq<Shortcut<string>>, ca: char, cb: char, c: char)
    requires IdsStartWith(a, ca) && IdsStartWith(b, cb) && c != ca && c != cb
    ensures forall i :: 0 <= i < |a + b| ==> |(a + b)[i].id| > 0 && (a + b)[i].id[0] != c
  {
  }

  lemma PhpstormSectionHead()
    ensures forall i, j :: 0 <= i < 4 && i < j < |PHPSTORM_SHORTCUTS| ==> PHPSTORM_SHORTCUTS[i].id != PHPSTORM_SHORTCUTS[j].id
  {
  }

  lemma PhpstormSectionTail()
    ensures forall i, j :: 4 <= i < j < |PHPSTORM_SHORTCUTS| ==> PHPSTORM_SHORTCUTS[i].id != PHPSTORM_SHORTCUTS[j].id
  {
  }

  lemma PhpstormSection()
    ensures IdsUnique(PHPSTORM_SHORTCUTS) && IdsStartWith(PHPSTORM_SHORTCUTS, 'p')
  {
    PhpstormSectionHead();
    PhpstormSectionTail();
  }

  lemma ArchlinuxSection()
    ensures IdsUnique(ARCHLINUX_SHORTCUTS) && IdsStartWith(ARCHLINUX_SHORTCUTS, 'a')
  {
  }

  lemma UbuntuSection()
    ensures IdsUnique(UBUNTU_SHORTCUTS) && IdsStartWith(UBUNTU_SHORTCUTS, 'u')
  {
  }

  /** No two catalog entries share an id. */
  lemma CatalogIdsDistinct()
    ensures IdsUnique(SHORTCUTS_DATA)
  {
    PhpstormSection();
    ArchlinuxSection();
    UbuntuSection();
    var ab := PHPSTORM_SHORTCUTS + ARCHLINUX_SHORTCUTS;
    IdsUniqueConcat(PHPSTORM_SHORTCUTS, ARCHLINUX_SHORTCUTS, 'p', 'a');
    IdsStartWithConcat(PHPSTORM_SHORTCUTS, ARCHLINUX_SHORTCUTS, 'p', 'a', 'u');
    forall i, j | 0 <= i < j < |ab + UBUNTU_SHORTCUTS| ensures (ab + UBUNTU_SHORTCUTS)[i].id != (ab + UBUNTU_SHORTCUTS)[j].id {
      if i < |ab| && j >= |ab| {
        assert (ab + UBUNTU_SHORTCUTS)[j].id[0] == 'u';
        assert (ab + UBUNTU_SHORTCUTS)[i].id[0] != 'u';
      }
    }
  }

  /** The ids of the category table, in table order. */
  function CategoryIds(): (r: seq<string>)
    ensures |r| == |CATEGORIES| && forall k :: 0 <= k < |r| ==> r[k] == CATEGORIES[k].id
  {
    seq(|CATEGORIES|, k requires 0 <= k < |CATEGORIES| => CATEGORIES[k].id)
  }

  /** The ids of the platform table, in table order. */
  function PlatformIds(): (r: seq<string>)
    ensures |r| == |PLATFORMS| && forall k :: 0 <= k < |r| ==> r[k] == PLATFORMS[k].id
  {
    seq(|PLATFORMS|, k requires 0 <= k < |PLATFORMS| => PLATFORMS[k].id)
  }

  /** Every entry's category and platform are ids of the category and platform tables. */
  predicate FieldsKnown(xs: seq<Shortcut<string>>)
  {
    forall i :: 0 <= i < |xs| ==> xs[i].category in CategoryIds() && xs[i].platform in PlatformIds()
  }

  /** Every catalog entry names a category of `CATEGORIES` and a platform of `PLATFORMS`. */
  lemma CatalogFieldsKnown()
    ensures FieldsKnown(SHORTCUTS_DATA)
  {
    PhpstormFieldsKnown();
    ArchlinuxFieldsKnown();
    UbuntuFieldsKnown();
    FieldsKnownConcat(PHPSTORM_SHORTCUTS, ARCHLINUX_SHORTCUTS);
    FieldsKnownConcat(PHPSTORM_SHORTCUTS + ARCHLINUX_SHORTCUTS, UBUNTU_SHORTCUTS);
  }

  lemma PhpstormFieldsKnown()
    ensures FieldsKnown(PHPSTORM_SHORTCUTS)
  {
    assert CategoryIds() == KNOWN_CATEGORY_IDS;
    assert PlatformIds() == ["phpstorm", "archlinux", "ubuntu"];
  }

  lemma ArchlinuxFieldsKnown()
    ensures FieldsKnown(ARCHLINUX_SHORTCUTS)
  {
    assert CategoryIds() == KNOWN_CATEGORY_IDS;
    assert PlatformIds() == ["phpstorm", "archlinux", "ubuntu"];
  }

  lemma UbuntuFieldsKnown()
    ensures FieldsKnown(UBUNTU_SHORTCUTS)
  {
    assert CategoryIds() == KNOWN_CATEGORY_IDS;
    assert PlatformIds() == ["phpstorm", "archlinux", "ubuntu"];
  }

  lemma {:induction false} FieldsKnownConcat(a: seq<Shortcut<string>>, b: seq<Shortcut<string>>)
    requires FieldsKnown(a) && FieldsKnown(b)
    ensures FieldsKnown(a + b)
  {
    forall i | 0 <= i < |a + b| ensures (a + b)[i].category in CategoryIds() && (a + b)[i].platform in PlatformIds() {
      if i < |a| { assert (a + b)[i] == a[i]; } else { assert (a + b)[i] == b[i - |a|]; }
    }
  }
}
