/**
 * The in-memory storage backend of the server: three JavaScript `Map`s
 * (users, shortcuts, favorites) and three id counters. A `Map`'s values
 * are kept as a sequence in insertion order, which is the order
 * `Array.from(map.values())` yields; `set` on a present key replaces the
 * value where it stands, `set` on a new key appends, `delete` removes.
 */
module MemStorage {
  import opened Wrappers
  import opened Seqs
  import opened Catalog

  datatype User = User(id: int, username: string, password: string)

  datatype InsertUser = InsertUser(username: string, password: string)

  /** A shortcut record before the store assigns its id. */
  datatype InsertShortcut = InsertShortcut(
    title: string,
    shortcut: string,
    description: string,
    category: string,
    platform: string)

  datatype Favorite = Favorite(id: int, userId: int, shortcutId: int)

  function WithId(s: InsertShortcut, id: int): Shortcut<int>
  {
    Shortcut(id, s.title, s.shortcut, s.description, s.category, s.platform)
  }

  /** The records of `xs` with the ids `first`, `first + 1`, ... in order. */
  function Numbered(xs: seq<InsertShortcut>, first: int): seq<Shortcut<int>>
  {
    seq(|xs|, i requires 0 <= i < |xs| => WithId(xs[i], first + i))
  }

  /** The favorites map's key for a record: the pair written `${userId}-${shortcutId}`. */
  function Key(f: Favorite): (int, int)
  {
    (f.userId, f.shortcutId)
  }

  predicate HasKey(favs: seq<Favorite>, userId: int, shortcutId: int)
  {
    exists i :: 0 <= i < |favs| && Key(favs[i]) == (userId, shortcutId)
  }

  predicate KeysUnique(favs: seq<Favorite>)
  {
    forall i, j :: 0 <= i < j < |favs| ==> Key(favs[i]) != Key(favs[j])
  }

  function HasKeyOf(key: (int, int)): Favorite -> bool
  {
    (g: Favorite) => Key(g) == key
  }

  function NotKey(key: (int, int)): Favorite -> bool
  {
    (g: Favorite) => Key(g) != key
  }

  function OfUser(userId: int): Favorite -> bool
  {
    (f: Favorite) => f.userId == userId
  }

  /** `favorites.set(key(f), f)`: replaces the record with the same key where it stands, or appends. */
  function PutFavorite(favs: seq<Favorite>, f: Favorite): seq<Favorite>
  {
    match FindFirst(favs, HasKeyOf(Key(f)))
    case Some(i) => favs[i := f]
    case None => favs + [f]
  }

  /** `favorites.delete(key)`: drops the record with that key, if any. */
  function DeleteFavorite(favs: seq<Favorite>, userId: int, shortcutId: int): seq<Favorite>
  {
    Filter(favs, NotKey((userId, shortcutId)))
  }

  /** After a put, the key is present, held by exactly the new record, and keys stay unique. */
  lemma PutFavoriteStores(favs: seq<Favorite>, f: Favorite)
    requires KeysUnique(favs)
    ensures var r := PutFavorite(favs, f);
      && KeysUnique(r)
      && HasKey(r, f.userId, f.shortcutId)
      && (forall i :: 0 <= i < |r| && Key(r[i]) == Key(f) ==> r[i] == f)
      && |r| == if HasKey(favs, f.userId, f.shortcutId) then |favs| else |favs| + 1
  {
    var r := PutFavorite(favs, f);
    match FindFirst(favs, HasKeyOf(Key(f)))
    case Some(i) =>
      assert Key(r[i]) == Key(f);
    case None =>
      assert Key(r[|favs|]) == Key(f);
  }

  /** A put changes no record under another key and keeps every other key's position. */
  lemma PutFavoriteKeepsOthers(favs: seq<Favorite>, f: Favorite)
    requires KeysUnique(favs)
    ensures var r := PutFavorite(favs, f);
      && (forall i :: 0 <= i < |favs| && Key(favs[i]) != Key(f) ==> r[i] == favs[i])
      && (forall u, s :: (u, s) != Key(f) ==> (HasKey(r, u, s) <==> HasKey(favs, u, s)))
  {
    var r := PutFavorite(favs, f);
    forall u, s | (u, s) != Key(f) ensures HasKey(r, u, s) <==> HasKey(favs, u, s) {
      if HasKey(favs, u, s) {
        var i :| 0 <= i < |favs| && Key(favs[i]) == (u, s);
        assert Key(r[i]) == (u, s);
      }
      if HasKey(r, u, s) {
        var i :| 0 <= i < |r| && Key(r[i]) == (u, s);
        assert i < |favs| && Key(favs[i]) == (u, s);
      }
    }
  }

  /** After a delete the key is absent and every other record is kept, in order. */
  lemma DeleteFavoriteRemoves(favs: seq<Favorite>, userId: int, shortcutId: int)
    ensures var r := DeleteFavorite(favs, userId, shortcutId);
      && !HasKey(r, userId, shortcutId)
      && IsSubsequence(r, favs)
      && (forall u, s :: (u, s) != (userId, shortcutId) ==> (HasKey(r, u, s) <==> HasKey(favs, u, s)))
  {
    var p := NotKey((userId, shortcutId));
    var r := DeleteFavorite(favs, userId, shortcutId);
    FilterIsSubsequence(favs, p);
    FilterMembers(favs, p);
    forall u, s | (u, s) != (userId, shortcutId) ensures HasKey(r, u, s) <==> HasKey(favs, u, s) {
      if HasKey(favs, u, s) {
        var i :| 0 <= i < |favs| && Key(favs[i]) == (u, s);
        assert p(favs[i]);
        var j :| 0 <= j < |r| && r[j] == favs[i];
      }
      if HasKey(r, u, s) {
        var i :| 0 <= i < |r| && Key(r[i]) == (u, s);
        assert r[i] in favs;
      }
    }
  }

  /** Deleting an absent key leaves the records as they were. */
  lemma DeleteAbsentFavorite(favs: seq<Favorite>, userId: int, shortcutId: int)
    requires !HasKey(favs, userId, shortcutId)
    ensures DeleteFavorite(favs, userId, shortcutId) == favs
  {
    FilterKeepsAll(favs, NotKey((userId, shortcutId)));
  }

  /** Deleting keeps keys unique. */
  lemma DeleteFavoriteKeepsKeysUnique(favs: seq<Favorite>, userId: int, shortcutId: int)
    requires KeysUnique(favs)
    ensures KeysUnique(DeleteFavorite(favs, userId, shortcutId))
  {
    var p := NotKey((userId, shortcutId));
    FilterIsSubsequence(favs, p);
    SubsequenceKeepsKeysUnique(DeleteFavorite(favs, userId, shortcutId), favs);
  }

  lemma {:induction false} SubsequenceKeepsKeysUnique(a: seq<Favorite>, b: seq<Favorite>)
    requires IsSubsequence(a, b) && KeysUnique(b)
    ensures KeysUnique(a)
    decreases |b|
  {
    if a != [] {
      var bi := b[..|b| - 1];
      assert KeysUnique(bi);
      if a[|a| - 1] == b[|b| - 1] && IsSubsequence(a[..|a| - 1], bi) {
        SubsequenceKeepsKeysUnique(a[..|a| - 1], bi);
        SubsequenceElements(a[..|a| - 1], bi);
        forall i, j | 0 <= i < j < |a| ensures Key(a[i]) != Key(a[j]) {
          if j == |a| - 1 {
            assert a[i] == a[..|a| - 1][i];
            var k :| 0 <= k < |bi| && bi[k] == a[i];
            assert b[k] == a[i];
          } else {
            assert a[i] == a[..|a| - 1][i] && a[j] == a[..|a| - 1][j];
          }
        }
      } else {
        SubsequenceKeepsKeysUnique(a, bi);
      }
    }
  }

  lemma {:induction false} SubsequenceElements<T>(a: seq<T>, b: seq<T>)
    requires IsSubsequence(a, b)
    ensures forall i :: 0 <= i < |a| ==> exists k :: 0 <= k < |b| && b[k] == a[i]
    decreases |b|
  {
    if a != [] {
      var bi := b[..|b| - 1];
      if a[|a| - 1] == b[|b| - 1] && IsSubsequence(a[..|a| - 1], bi) {
        SubsequenceElements(a[..|a| - 1], bi);
        forall i | 0 <= i < |a| ensures exists k :: 0 <= k < |b| && b[k] == a[i] {
          if i == |a| - 1 {
            assert b[|b| - 1] == a[i];
          } else {
            assert a[i] == a[..|a| - 1][i];
            var k :| 0 <= k < |bi| && bi[k] == a[i];
            assert b[k] == a[i];
          }
        }
      } else {
        SubsequenceElements(a, bi);
        forall i | 0 <= i < |a| ensures exists k :: 0 <= k < |b| && b[k] == a[i] {
          var k :| 0 <= k < |bi| && bi[k] == a[i];
          assert b[k] == a[i];
        }
      }
    }
  }

  /** The shortcut ids of `favs`, in order. */
  function ShortcutIds(favs: seq<Favorite>): (r: seq<int>)
    ensures |r| == |favs| && forall i :: 0 <= i < |favs| ==> r[i] == favs[i].shortcutId
  {
    if favs == [] then [] else [favs[0].shortcutId] + ShortcutIds(favs[1..])
  }

  /** The shortcut ids a user's favorites hold, in map order. */
  function FavoritesOf(favs: seq<Favorite>, userId: int): seq<int>
  {
    ShortcutIds(Filter(favs, OfUser(userId)))
  }

  /** A shortcut id is listed for a user exactly when the pair has a record. */
  lemma FavoritesOfMembers(favs: seq<Favorite>, userId: int)
    ensures forall s :: s in FavoritesOf(favs, userId) <==> HasKey(favs, userId, s)
  {
    var mine := Filter(favs, OfUser(userId));
    var r := ShortcutIds(mine);
    FilterMembers(favs, OfUser(userId));
    forall s ensures s in r <==> HasKey(favs, userId, s) {
      if s in r {
        var i :| 0 <= i < |r| && r[i] == s;
        assert mine[i] in favs;
      }
      if HasKey(favs, userId, s) {
        var i :| 0 <= i < |favs| && Key(favs[i]) == (userId, s);
        assert favs[i] in mine;
        var j :| 0 <= j < |mine| && mine[j] == favs[i];
        assert r[j] == s;
      }
    }
  }

  /** With unique keys, no shortcut id is listed twice for a user. */
  lemma FavoritesOfDistinct(favs: seq<Favorite>, userId: int)
    requires KeysUnique(favs)
    ensures var r := FavoritesOf(favs, userId);
      forall i, j :: 0 <= i < j < |r| ==> r[i] != r[j]
  {
    var p := OfUser(userId);
    var mine := Filter(favs, p);
    var r := ShortcutIds(mine);
    FilterIsSubsequence(favs, p);
    SubsequenceKeepsKeysUnique(mine, favs);
    forall i, j | 0 <= i < j < |r| ensures r[i] != r[j] {
      assert Key(mine[i]) != Key(mine[j]);
    }
  }

  predicate IncreasingUserIds(us: seq<User>)
  {
    forall i, j :: 0 <= i < j < |us| ==> us[i].id < us[j].id
  }

  predicate IncreasingShortcutIds(ss: seq<Shortcut<int>>)
  {
    forall i, j :: 0 <= i < j < |ss| ==> ss[i].id < ss[j].id
  }

  class MemStorage {
    /** The values of the `users` map, in insertion order; the key of each is its id. */
    var users: seq<User>
    /** The values of the `shortcuts` map, in insertion order; the key of each is its id. */
    var shortcuts: seq<Shortcut<int>>
    /** The values of the `favorites` map, in insertion order; the key of each is `Key`. */
    var favorites: seq<Favorite>
    var currentUserId: int
    var currentShortcutId: int
    var currentFavoriteId: int

    /** Ids are handed out in increasing order, so each map's keys are distinct and below its counter. */
    ghost predicate Valid()
      reads this
    {
      && 1 <= currentUserId && 1 <= currentShortcutId && 1 <= currentFavoriteId
      && IncreasingUserIds(users)
      && (forall i :: 0 <= i < |users| ==> 1 <= users[i].id < currentUserId)
      && IncreasingShortcutIds(shortcuts)
      && (forall i :: 0 <= i < |shortcuts| ==> 1 <= shortcuts[i].id < currentShortcutId)
      && KeysUnique(favorites)
      && (forall i :: 0 <= i < |favorites| ==> 1 <= favorites[i].id < currentFavoriteId)
    }

    /** A new store: empty maps, counters at 1, then the seed table loaded with ids 1, 2, ... */
    constructor ()
      ensures Valid()
      ensures users == [] && favorites == []
      ensures shortcuts == Numbered(INITIAL_SHORTCUTS, 1)
      ensures currentUserId == 1 && currentFavoriteId == 1
      ensures currentShortcutId == |INITIAL_SHORTCUTS| + 1
    {
      users := [];
      shortcuts := [];
      favorites := [];
      currentUserId := 1;
      currentShortcutId := 1;
      currentFavoriteId := 1;
      new;
      InitializeShortcuts(INITIAL_SHORTCUTS);
    }

    /** `initializeShortcuts`: each seed record is stored under the next counter value, in seed order. */
    method InitializeShortcuts(seed: seq<InsertShortcut>)
      requires Valid()
      modifies this
      ensures Valid()
      ensures shortcuts == old(shortcuts) + Numbered(seed, old(currentShortcutId))
      ensures currentShortcutId == old(currentShortcutId) + |seed|
      ensures users == old(users) && favorites == old(favorites)
      ensures currentUserId == old(currentUserId) && currentFavoriteId == old(currentFavoriteId)
    {
      var k := 0;
      while k < |seed|
        invariant 0 <= k <= |seed|
        invariant Valid()
        invariant shortcuts == old(shortcuts) + Numbered(seed[..k], old(currentShortcutId))
        invariant currentShortcutId == old(currentShortcutId) + k
        invariant users == old(users) && favorites == old(favorites)
        invariant currentUserId == old(currentUserId) && currentFavoriteId == old(currentFavoriteId)
      {
        var id := currentShortcutId;
        currentShortcutId := currentShortcutId + 1;
        shortcuts := shortcuts + [WithId(seed[k], id)];
        assert Numbered(seed[..k + 1], old(currentShortcutId))
          == Numbered(seed[..k], old(currentShortcutId)) + [WithId(seed[k], id)];
        k := k + 1;
      }
      assert seed[..k] == seed;
    }

    /** `getUser`: the user stored under that id, if any. */
    method GetUser(id: int) returns (r: Option<User>)
      requires Valid()
      ensures r.Some? ==> r.value in users && r.value.id == id
      ensures r.None? <==> forall i :: 0 <= i < |users| ==> users[i].id != id
    {
      r := match FindFirst(users, (u: User) => u.id == id)
        case Some(i) => Some(users[i])
        case None => None;
    }

    /** `getUserByUsername`: the first user, in insertion order, with that username. */
    method GetUserByUsername(username: string) returns (r: Option<User>)
      ensures r.Some? ==> exists i :: (0 <= i < |users| && users[i] == r.value && users[i].username == username
                                   && forall j :: 0 <= j < i ==> users[j].username != username)
      ensures r.None? <==> forall i :: 0 <= i < |users| ==> users[i].username != username
    {
      r := match FindFirst(users, (u: User) => u.username == username)
        case Some(i) => Some(users[i])
        case None => None;
    }

    /** `createUser`: stores the user under the current counter value and advances the counter. */
    method CreateUser(insertUser: InsertUser) returns (user: User)
      requires Valid()
      modifies this
      ensures Valid()
      ensures user == User(old(currentUserId), insertUser.username, insertUser.password)
      ensures forall i :: 0 <= i < |old(users)| ==> old(users)[i].id != user.id
      ensures users == old(users) + [user] && currentUserId == old(currentUserId) + 1
      ensures shortcuts == old(shortcuts) && favorites == old(favorites)
      ensures currentShortcutId == old(currentShortcutId) && currentFavoriteId == old(currentFavoriteId)
    {
      var id := currentUserId;
      currentUserId := currentUserId + 1;
      user := User(id, insertUser.username, insertUser.password);
      users := users + [user];
    }

    /** `getAllShortcuts`: every stored shortcut, in insertion order. */
    method GetAllShortcuts() returns (r: seq<Shortcut<int>>)
      requires Valid()
      ensures r == shortcuts
      ensures IncreasingShortcutIds(r)
    {
      r := shortcuts;
    }

    /** `getShortcutsByPlatform`: exactly the shortcuts on that platform, in insertion order. */
    method GetShortcutsByPlatform(platform: string) returns (r: seq<Shortcut<int>>)
      ensures SelectionOf(r, shortcuts, (s: Shortcut<int>) => s.platform == platform)
    {
      r := ByPlatform(shortcuts, platform);
      ByPlatformSelects(shortcuts, platform);
    }

    /** `getShortcutsByCategory`: exactly the shortcuts in that category, in insertion order. */
    method GetShortcutsByCategory(category: string) returns (r: seq<Shortcut<int>>)
      ensures SelectionOf(r, shortcuts, (s: Shortcut<int>) => s.category == category)
    {
      r := ByCategory(shortcuts, category);
      ByCategorySelects(shortcuts, category);
    }

    /** `searchShortcuts`: exactly the shortcuts matching the query case-insensitively; "" returns all. */
    method SearchShortcuts(query: string) returns (r: seq<Shortcut<int>>)
      ensures SelectionOf(r, shortcuts, (s: Shortcut<int>) => MatchesQuery(s, query))
      ensures query == "" ==> r == shortcuts
    {
      r := Search(shortcuts, query);
      SearchSelects(shortcuts, query);
      if query == "" {
        SearchEmptyIsAll(shortcuts);
      }
    }

    /** `createShortcut`: stores the record under the current counter value, then advances the counter. */
    method CreateShortcut(insertShortcut: InsertShortcut) returns (shortcut: Shortcut<int>)
      requires Valid()
      modifies this
      ensures Valid()
      ensures shortcut == WithId(insertShortcut, old(currentShortcutId))
      ensures forall i :: 0 <= i < |old(shortcuts)| ==> old(shortcuts)[i].id < shortcut.id
      ensures shortcuts == old(shortcuts) + [shortcut] && currentShortcutId == old(currentShortcutId) + 1
      ensures users == old(users) && favorites == old(favorites)
      ensures currentUserId == old(currentUserId) && currentFavoriteId == old(currentFavoriteId)
    {
      var id := currentShortcutId;
      currentShortcutId := currentShortcutId + 1;
      shortcut := WithId(insertShortcut, id);
      shortcuts := shortcuts + [shortcut];
    }

    /** `getFavorites`: the shortcut ids of exactly that user's favorites, each once, in map order. */
    method GetFavorites(userId: int) returns (r: seq<int>)
      requires Valid()
      ensures r == FavoritesOf(favorites, userId)
      ensures forall s :: s in r <==> HasKey(favorites, userId, s)
      ensures forall i, j :: 0 <= i < j < |r| ==> r[i] != r[j]
    {
      r := ShortcutIds(Filter(favorites, OfUser(userId)));
      FavoritesOfMembers(favorites, userId);
      FavoritesOfDistinct(favorites, userId);
    }

    /** `addFavorite`: a fresh record for the pair replaces any earlier one for the same pair. */
    method AddFavorite(userId: int, shortcutId: int) returns (favorite: Favorite)
      requires Valid()
      modifies this
      ensures Valid()
      ensures favorite == Favorite(old(currentFavoriteId), userId, shortcutId)
      ensures favorites == PutFavorite(old(favorites), favorite)
      ensures currentFavoriteId == old(currentFavoriteId) + 1
      ensures users == old(users) && shortcuts == old(shortcuts)
      ensures currentUserId == old(currentUserId) && currentShortcutId == old(currentShortcutId)
    {
      var id := currentFavoriteId;
      currentFavoriteId := currentFavoriteId + 1;
      favorite := Favorite(id, userId, shortcutId);
      PutFavoriteStores(favorites, favorite);
      PutFavoriteKeepsOthers(favorites, favorite);
      favorites := PutFavorite(favorites, favorite);
    }

    /** `removeFavorite`: drops the pair's record, if there is one. */
    method RemoveFavorite(userId: int, shortcutId: int)
      requires Valid()
      modifies this
      ensures Valid()
      ensures favorites == DeleteFavorite(old(favorites), userId, shortcutId)
      ensures users == old(users) && shortcuts == old(shortcuts)
      ensures currentUserId == old(currentUserId) && currentShortcutId == old(currentShortcutId)
      ensures currentFavoriteId == old(currentFavoriteId)
    {
      DeleteFavoriteKeepsKeysUnique(favorites, userId, shortcutId);
      FilterMembers(favorites, NotKey((userId, shortcutId)));
      favorites := DeleteFavorite(favorites, userId, shortcutId);
    }

    /** `isFavorite`: whether the pair has a record. */
    method IsFavorite(userId: int, shortcutId: int) returns (r: bool)
      ensures r <==> HasKey(favorites, userId, shortcutId)
    {
      r := FindFirst(favorites, HasKeyOf((userId, shortcutId))).Some?;
    }
  }

  /** The seed table of `initializeShortcuts`, in source order. */
  const INITIAL_SHORTCUTS: seq<InsertShortcut> := [
      InsertShortcut("Quick Open File", "Ctrl+Shift+N", "Quickly open any file in your project", "navigation", "phpstorm"),
      InsertShortcut("Go to Declaration", "Ctrl+B", "Navigate to the declaration of a symbol", "navigation", "phpstorm"),
      InsertShortcut("Find in Files", "Ctrl+Shift+F", "Search for text across all project files", "navigation", "phpstorm"),
      InsertShortcut("Recent Files", "Ctrl+E", "Show recently opened files", "navigation", "phpstorm"),
      InsertShortcut("Duplicate Line", "Ctrl+D", "Duplicate the current line or selection", "editing", "phpstorm"),
      InsertShortcut("Multiple Cursors", "Alt+Click", "Add multiple cursors for simultaneous editing", "editing", "phpstorm"),
      InsertShortcut("Comment Line", "Ctrl+/", "Toggle line comment", "editing", "phpstorm"),
      InsertShortcut("Reformat Code", "Ctrl+Alt+L", "Automatically format code according to style settings", "editing", "phpstorm"),
      InsertShortcut("Toggle Breakpoint", "Ctrl+F8", "Toggle breakpoint at current line", "debugging", "phpstorm"),
      InsertShortcut("Step Over", "F8", "Step over to the next line in debugging", "debugging", "phpstorm"),
      InsertShortcut("Step Into", "F7", "Step into function calls during debugging", "debugging", "phpstorm"),
      InsertShortcut("Resume Program", "F9", "Continue program execution", "debugging", "phpstorm"),
      InsertShortcut("Run File", "Ctrl+Shift+F10", "Run current file", "debugging", "phpstorm"),
      InsertShortcut("Debug File", "Ctrl+Shift+F9", "Debug current file", "debugging", "phpstorm"),
      InsertShortcut("Select All", "Ctrl+A", "Select all text in current file", "editing", "phpstorm"),
      InsertShortcut("Cut Line", "Ctrl+X", "Cut current line to clipboard", "editing", "phpstorm"),
      InsertShortcut("Copy Line", "Ctrl+C", "Copy current line to clipboard", "editing", "phpstorm"),
      InsertShortcut("Paste", "Ctrl+V", "Paste from clipboard", "editing", "phpstorm"),
      InsertShortcut("Undo", "Ctrl+Z", "Undo last action", "editing", "phpstorm"),
      InsertShortcut("Redo", "Ctrl+Shift+Z", "Redo last undone action", "editing", "phpstorm"),
      InsertShortcut("Move Line Up", "Ctrl+Shift+Up", "Move current line up", "editing", "phpstorm"),
      InsertShortcut("Move Line Down", "Ctrl+Shift+Down", "Move current line down", "editing", "phpstorm"),
      InsertShortcut("Delete Line", "Ctrl+Y", "Delete current line", "editing", "phpstorm"),
      InsertShortcut("Expand Selection", "Ctrl+W", "Expand selection to word/block", "editing", "phpstorm"),
      InsertShortcut("Shrink Selection", "Ctrl+Shift+W", "Shrink selection", "editing", "phpstorm"),
      InsertShortcut("Surround With", "Ctrl+Alt+T", "Surround selection with template", "editing", "phpstorm"),
      InsertShortcut("Join Lines", "Ctrl+Shift+J", "Join current line with next", "editing", "phpstorm"),
      InsertShortcut("Quick Documentation", "Ctrl+Q", "Show quick documentation", "navigation", "phpstorm"),
      InsertShortcut("Parameter Info", "Ctrl+P", "Show function parameter info", "navigation", "phpstorm"),
      InsertShortcut("Show Error Description", "Ctrl+F1", "Show error description at cursor", "navigation", "phpstorm"),
      InsertShortcut("Find Usage", "Alt+F7", "Find usages of symbol", "navigation", "phpstorm"),
      InsertShortcut("Refactor Rename", "Shift+F6", "Rename symbol across project", "editing", "phpstorm"),
      InsertShortcut("Extract Method", "Ctrl+Alt+M", "Extract selection into method", "editing", "phpstorm"),
      InsertShortcut("Extract Variable", "Ctrl+Alt+V", "Extract expression into variable", "editing", "phpstorm"),
      InsertShortcut("Optimize Imports", "Ctrl+Alt+O", "Optimize and clean up imports", "editing", "phpstorm"),
      InsertShortcut("Go to Line", "Ctrl+G", "Go to specific line number", "navigation", "phpstorm"),
      InsertShortcut("Structure View", "Alt+7", "Open file structure view", "navigation", "phpstorm"),
      InsertShortcut("Project View", "Alt+1", "Open project files view", "navigation", "phpstorm"),
      InsertShortcut("Find Replace", "Ctrl+R", "Find and replace in file", "navigation", "phpstorm"),
      InsertShortcut("Find Replace All", "Ctrl+Shift+R", "Find and replace in project", "navigation", "phpstorm"),
      InsertShortcut("Package Update", "sudo pacman -Syu", "Update all installed packages", "system", "archlinux"),
      InsertShortcut("Install Package", "sudo pacman -S [package]", "Install a specific package", "system", "archlinux"),
      InsertShortcut("Remove Package", "sudo pacman -R [package]", "Remove a package", "system", "archlinux"),
      InsertShortcut("Search Package", "pacman -Ss [query]", "Search for packages in repositories", "system", "archlinux"),
      InsertShortcut("Clean Package Cache", "sudo pacman -Sc", "Clean unused package cache", "system", "archlinux"),
      InsertShortcut("Package Info", "pacman -Si [package]", "Show detailed package information", "system", "archlinux"),
      InsertShortcut("List Installed", "pacman -Q", "List all installed packages", "system", "archlinux"),
      InsertShortcut("AUR Helper Install", "yay -S [package]", "Install package from AUR with yay", "system", "archlinux"),
      InsertShortcut("Open Terminal", "Ctrl+Alt+T", "Open a new terminal window", "window", "archlinux"),
      InsertShortcut("Switch Desktop", "Ctrl+Alt+Arrow", "Switch between virtual desktops", "window", "archlinux"),
      InsertShortcut("Close Window", "Alt+F4", "Close the current window", "window", "archlinux"),
      InsertShortcut("Tiling Windows", "Super+Arrow", "Tile windows to screen edges", "window", "archlinux"),
      InsertShortcut("Application Launcher", "Super+Space", "Open application launcher", "window", "archlinux"),
      InsertShortcut("Lock Screen", "Super+L", "Lock the screen", "window", "archlinux"),
      InsertShortcut("Directory Navigation", "cd ..", "Go up one directory level", "navigation", "archlinux"),
      InsertShortcut("List Files", "ls -la", "List all files with detailed information", "navigation", "archlinux"),
      InsertShortcut("Find Files", "find / -name '[filename]'", "Search for files system-wide", "navigation", "archlinux"),
      InsertShortcut("File Permissions", "chmod 755 [file]", "Change file permissions", "navigation", "archlinux"),
      InsertShortcut("Copy Files", "cp -r [source] [destination]", "Copy files and directories recursively", "navigation", "archlinux"),
      InsertShortcut("Move Files", "mv [source] [destination]", "Move or rename files and directories", "navigation", "archlinux"),
      InsertShortcut("Text Editor", "nano [filename]", "Open text editor for file editing", "editing", "archlinux"),
      InsertShortcut("Vim Editor", "vim [filename]", "Open vim text editor", "editing", "archlinux"),
      InsertShortcut("Archive Extract", "tar -xzf [archive.tar.gz]", "Extract tar.gz archive", "system", "archlinux"),
      InsertShortcut("System Logs", "journalctl -f", "Follow system logs in real-time", "system", "archlinux"),
      InsertShortcut("Service Status", "systemctl status [service]", "Check systemd service status", "system", "archlinux"),
      InsertShortcut("Start Service", "sudo systemctl start [service]", "Start a systemd service", "system", "archlinux"),
      InsertShortcut("Process Monitor", "htop", "Interactive process monitor", "system", "archlinux"),
      InsertShortcut("Update System", "sudo apt update && sudo apt upgrade", "Update package list and upgrade all packages", "system", "ubuntu"),
      InsertShortcut("Install Package", "sudo apt install [package]", "Install a specific package", "system", "ubuntu"),
      InsertShortcut("Remove Package", "sudo apt remove [package]", "Remove a package", "system", "ubuntu"),
      InsertShortcut("Search Package", "apt search [query]", "Search for packages in repositories", "system", "ubuntu"),
      InsertShortcut("Show Applications", "Super", "Open activities overview and application launcher", "window", "ubuntu"),
      InsertShortcut("Switch Windows", "Alt+Tab", "Switch between open applications", "window", "ubuntu"),
      InsertShortcut("Lock Screen", "Super+L", "Lock the screen", "window", "ubuntu"),
      InsertShortcut("Take Screenshot", "PrtScr", "Take a screenshot of the entire screen", "window", "ubuntu"),
      InsertShortcut("Open Terminal", "Ctrl+Alt+T", "Open a new terminal window", "window", "ubuntu"),
      InsertShortcut("Close Window", "Alt+F4", "Close the current window", "window", "ubuntu"),
      InsertShortcut("Minimize Window", "Super+H", "Minimize the current window", "window", "ubuntu"),
      InsertShortcut("Maximize Window", "Super+Up", "Maximize the current window", "window", "ubuntu"),
      InsertShortcut("Switch Workspaces", "Super+Page Up/Down", "Switch between workspaces", "window", "ubuntu"),
      InsertShortcut("Show Desktop", "Super+D", "Show desktop and hide all windows", "window", "ubuntu"),
      InsertShortcut("Open File Manager", "Super+E", "Open the file manager", "navigation", "ubuntu"),
      InsertShortcut("Go Home Directory", "cd ~", "Navigate to home directory", "navigation", "ubuntu"),
      InsertShortcut("List Hidden Files", "ls -la", "List all files including hidden ones", "navigation", "ubuntu"),
      InsertShortcut("Find Files", "find . -name '[filename]'", "Search for files by name", "navigation", "ubuntu"),
      InsertShortcut("Check Disk Usage", "df -h", "Show disk space usage", "system", "ubuntu"),
      InsertShortcut("Process List", "ps aux", "Show running processes", "system", "ubuntu"),
      InsertShortcut("Kill Process", "sudo kill -9 [PID]", "Force kill a process by PID", "system", "ubuntu"),
      InsertShortcut("System Monitor", "htop", "Interactive process monitor", "system", "ubuntu"),
      InsertShortcut("Network Status", "ip addr show", "Show network interface information", "system", "ubuntu")
    ]
}
