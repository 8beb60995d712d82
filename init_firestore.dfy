/**
 * Seeding the document store from the catalog tables: each of the three
 * steps looks at its collection, does nothing when it holds documents,
 * and otherwise adds one document per seed entry, in table order, keeping
 * the entry's id as `originalId`. The store may throw on a write; the
 * number of writes it accepts before throwing is part of the state.
 */
module InitFirestore {
  import opened Wrappers
  import opened Catalog
  import ShortcutsData
  import HomePage

  /** A seeded shortcut document: the entry under its document id, and the entry's own id. */
  datatype ShortcutDoc = ShortcutDoc(doc: Shortcut<string>, originalId: string)

  /** The platform document for a seed entry; an empty icon is stored as null. */
  function PlatformDoc(docId: string, p: ShortcutsData.Platform): (r: HomePage.Platform)
    ensures r.id == docId && r.name == p.name && r.description == p.description && r.originalId == Some(p.id)
    ensures r.icon.None? <==> p.icon == ""
  {
    HomePage.Platform(docId, p.name, if p.icon == "" then None else Some(p.icon), p.description, Some(p.id))
  }

  function CategoryDoc(docId: string, c: ShortcutsData.Category): HomePage.Category
  {
    HomePage.Category(docId, c.name, c.color, Some(c.id))
  }

  function ShortcutDocOf(docId: string, s: Shortcut<string>): ShortcutDoc
  {
    ShortcutDoc(s.(id := docId), s.id)
  }

  /** Writes a step of `n` documents makes before the store throws. */
  function Writes(n: nat, budget: Option<nat>): (w: nat)
    ensures w <= n
    ensures w < n <==> budget.Some? && budget.value < n
  {
    if budget.Some? && budget.value < n then budget.value else n
  }

  /** A seeding step: the existing documents when there are any, else the new ones up to the failing write. */
  function Seeded<T>(existing: seq<T>, docs: seq<T>, budget: Option<nat>): (r: seq<T>)
    ensures existing != [] ==> r == existing
    ensures existing == [] ==> r == docs[..Writes(|docs|, budget)]
  {
    if existing != [] then existing else docs[..Writes(|docs|, budget)]
  }

  /** The step finishes without an exception. */
  predicate SeedOk<T>(existing: seq<T>, n: nat, budget: Option<nat>)
  {
    existing != [] || Writes(n, budget) == n
  }

  /** The writes the store still accepts after the step. */
  function Remaining<T>(existing: seq<T>, n: nat, budget: Option<nat>): Option<nat>
  {
    if existing != [] || budget.None? then budget else Some(budget.value - Writes(n, budget))
  }

  /**
   * A step that wrote anything leaves its collection as it is on every
   * later run: once more seeding, whatever the store then accepts, changes
   * nothing, even when the first run stopped part way.
   */
  lemma SeedingIsIdempotent<T>(existing: seq<T>, docs: seq<T>, b1: Option<nat>, b2: Option<nat>)
    requires Seeded(existing, docs, b1) != [] || docs == []
    ensures Seeded(Seeded(existing, docs, b1), docs, b2) == Seeded(existing, docs, b1)
  {
    if Seeded(existing, docs, b1) == [] {
      assert docs[..Writes(|docs|, b2)] == [];
    }
  }

  /** A step that fails after some writes leaves a proper, non-empty part of the table, which no later run completes. */
  lemma PartialSeedingSticks<T>(docs: seq<T>, k: nat)
    requires 0 < k < |docs|
    ensures var once := Seeded([], docs, Some(k));
      && !SeedOk<T>([], |docs|, Some(k))
      && once == docs[..k] && once != []
      && Seeded(once, docs, None) == once
  {
  }

  class Seeder {
    /** The document id the store gives the `i`-th document added to each collection. */
    const newId: (string, nat) -> string
    const platformSeeds: seq<ShortcutsData.Platform>
    const categorySeeds: seq<ShortcutsData.Category>
    const shortcutSeeds: seq<Shortcut<string>>
    var platforms: seq<HomePage.Platform>
    var categories: seq<HomePage.Category>
    var shortcuts: seq<ShortcutDoc>
    /** Writes the store accepts before it throws; None when it never throws. */
    var budget: Option<nat>

    constructor (
      newId: (string, nat) -> string,
      platformSeeds: seq<ShortcutsData.Platform>,
      categorySeeds: seq<ShortcutsData.Category>,
      shortcutSeeds: seq<Shortcut<string>>,
      platforms: seq<HomePage.Platform>,
      categories: seq<HomePage.Category>,
      shortcuts: seq<ShortcutDoc>,
      budget: Option<nat>)
      ensures this.newId == newId && this.platformSeeds == platformSeeds
      ensures this.categorySeeds == categorySeeds && this.shortcutSeeds == shortcutSeeds
      ensures this.platforms == platforms && this.categories == categories && this.shortcuts == shortcuts
      ensures this.budget == budget
    {
      this.newId := newId;
      this.platformSeeds := platformSeeds;
      this.categorySeeds := categorySeeds;
      this.shortcutSeeds := shortcutSeeds;
      this.platforms := platforms;
      this.categories := categories;
      this.shortcuts := shortcuts;
      this.budget := budget;
    }

    function PlatformDocs(): (r: seq<HomePage.Platform>)
      ensures |r| == |platformSeeds|
      ensures forall i :: 0 <= i < |r| ==> r[i] == PlatformDoc(newId("platforms", i), platformSeeds[i])
    {
      seq(|platformSeeds|, i requires 0 <= i < |platformSeeds| => PlatformDoc(newId("platforms", i), platformSeeds[i]))
    }

    function CategoryDocs(): (r: seq<HomePage.Category>)
      ensures |r| == |categorySeeds|
      ensures forall i :: 0 <= i < |r| ==> r[i] == CategoryDoc(newId("categories", i), categorySeeds[i])
    {
      seq(|categorySeeds|, i requires 0 <= i < |categorySeeds| => CategoryDoc(newId("categories", i), categorySeeds[i]))
    }

    function ShortcutDocs(): (r: seq<ShortcutDoc>)
      ensures |r| == |shortcutSeeds|
      ensures forall i :: 0 <= i < |r| ==> r[i] == ShortcutDocOf(newId("shortcuts", i), shortcutSeeds[i])
    {
      seq(|shortcutSeeds|, i requires 0 <= i < |shortcutSeeds| => ShortcutDocOf(newId("shortcuts", i), shortcutSeeds[i]))
    }

    /** The store accepts one more write, and counts it. */
    method Consume() returns (accepted: bool)
      modifies this
      ensures accepted <==> old(budget) != Some(0)
      ensures budget == (if old(budget).Some? && old(budget).value > 0 then Some(old(budget).value - 1) else old(budget))
      ensures platforms == old(platforms) && categories == old(categories) && shortcuts == old(shortcuts)
    {
      if budget == Some(0) {
        return false;
      }
      if budget.Some? {
        budget := Some(budget.value - 1);
      }
      accepted := true;
    }

    /** `initializePlatforms`. */
    method InitializePlatforms() returns (ok: bool)
      modifies this
      ensures platforms == Seeded(old(platforms), PlatformDocs(), old(budget))
      ensures ok <==> SeedOk(old(platforms), |platformSeeds|, old(budget))
      ensures budget == Remaining(old(platforms), |platformSeeds|, old(budget))
      ensures categories == old(categories) && shortcuts == old(shortcuts)
    {
      if platforms != [] {
        return true;
      }
      var docs := PlatformDocs();
      var i := 0;
      while i < |platformSeeds|
        invariant i <= |platformSeeds|
        invariant old(budget).Some? ==> i <= old(budget).value
        invariant platforms == docs[..i]
        invariant budget == (if old(budget).None? then None else Some(old(budget).value - i))
        invariant categories == old(categories) && shortcuts == old(shortcuts)
      {
        var accepted := Consume();
        if !accepted {
          return false;
        }
        platforms := platforms + [PlatformDoc(newId("platforms", i), platformSeeds[i])];
        i := i + 1;
      }
      ok := true;
    }

    /** `initializeCategories`. */
    method InitializeCategories() returns (ok: bool)
      modifies this
      ensures categories == Seeded(old(categories), CategoryDocs(), old(budget))
      ensures ok <==> SeedOk(old(categories), |categorySeeds|, old(budget))
      ensures budget == Remaining(old(categories), |categorySeeds|, old(budget))
      ensures platforms == old(platforms) && shortcuts == old(shortcuts)
    {
      if categories != [] {
        return true;
      }
      var docs := CategoryDocs();
      var i := 0;
      while i < |categorySeeds|
        invariant i <= |categorySeeds|
        invariant old(budget).Some? ==> i <= old(budget).value
        invariant categories == docs[..i]
        invariant budget == (if old(budget).None? then None else Some(old(budget).value - i))
        invariant platforms == old(platforms) && shortcuts == old(shortcuts)
      {
        var accepted := Consume();
        if !accepted {
          return false;
        }
        categories := categories + [CategoryDoc(newId("categories", i), categorySeeds[i])];
        i := i + 1;
      }
      ok := true;
    }

    /** `initializeShortcuts`. */
    method InitializeShortcuts() returns (ok: bool)
      modifies this
      ensures shortcuts == Seeded(old(shortcuts), ShortcutDocs(), old(budget))
      ensures ok <==> SeedOk(old(shortcuts), |shortcutSeeds|, old(budget))
      ensures budget == Remaining(old(shortcuts), |shortcutSeeds|, old(budget))
      ensures platforms == old(platforms) && categories == old(categories)
    {
      if shortcuts != [] {
        return true;
      }
      var docs := ShortcutDocs();
      var i := 0;
      while i < |shortcutSeeds|
        invariant i <= |shortcutSeeds|
        invariant old(budget).Some? ==> i <= old(budget).value
        invariant shortcuts == docs[..i]
        invariant budget == (if old(budget).None? then None else Some(old(budget).value - i))
        invariant platforms == old(platforms) && categories == old(categories)
      {
        var accepted := Consume();
        if !accepted {
          return false;
        }
        shortcuts := shortcuts + [ShortcutDocOf(newId("shortcuts", i), shortcutSeeds[i])];
        i := i + 1;
      }
      ok := true;
    }

    /**
     * `initializeFirestore`: the three steps in turn; true when all three
     * finish, false as soon as one throws, later steps then not running.
     */
    method InitializeFirestore() returns (ok: bool)
      modifies this
      ensures platforms == Seeded(old(platforms), PlatformDocs(), old(budget))
      ensures var b1 := Remaining(old(platforms), |platformSeeds|, old(budget));
        var b2 := Remaining(old(categories), |categorySeeds|, b1);
        ok <==> (SeedOk(old(platforms), |platformSeeds|, old(budget))
          && SeedOk(old(categories), |categorySeeds|, b1)
          && SeedOk(old(shortcuts), |shortcutSeeds|, b2))
      ensures var b1 := Remaining(old(platforms), |platformSeeds|, old(budget));
        categories == if SeedOk(old(platforms), |platformSeeds|, old(budget))
          then Seeded(old(categories), CategoryDocs(), b1) else old(categories)
      ensures var b1 := Remaining(old(platforms), |platformSeeds|, old(budget));
        var b2 := Remaining(old(categories), |categorySeeds|, b1);
        shortcuts == if SeedOk(old(platforms), |platformSeeds|, old(budget)) && SeedOk(old(categories), |categorySeeds|, b1)
          then Seeded(old(shortcuts), ShortcutDocs(), b2) else old(shortcuts)
      ensures var b1 := Remaining(old(platforms), |platformSeeds|, old(budget));
        var b2 := Remaining(old(categories), |categorySeeds|, b1);
        budget == if !SeedOk(old(platforms), |platformSeeds|, old(budget)) then b1
          else if !SeedOk(old(categories), |categorySeeds|, b1) then b2
          else Remaining(old(shortcuts), |shortcutSeeds|, b2)
      ensures ok ==>
        && categories == (if old(categories) != [] then old(categories) else CategoryDocs())
        && shortcuts == (if old(shortcuts) != [] then old(shortcuts) else ShortcutDocs())
        && platforms == (if old(platforms) != [] then old(platforms) else PlatformDocs())
      ensures old(budget).None? ==> ok
      ensures !SeedOk(old(platforms), |platformSeeds|, old(budget)) ==>
        !ok && categories == old(categories) && shortcuts == old(shortcuts)
      ensures old(platforms) != [] && old(categories) != [] && old(shortcuts) != [] ==>
        ok && platforms == old(platforms) && categories == old(categories) && shortcuts == old(shortcuts) && budget == old(budget)
    {
      ok := InitializePlatforms();
      if !ok {
        return;
      }
      ok := InitializeCategories();
      if !ok {
        return;
      }
      ok := InitializeShortcuts();
    }

    /** `isFirestoreInitialized`: the platforms collection is non-empty; a failed read answers false. */
    method IsFirestoreInitialized(readFails: bool) returns (r: bool)
      ensures r <==> !readFails && platforms != []
    {
      r := !readFails && platforms != [];
    }
  }
}
