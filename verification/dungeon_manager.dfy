/** The dungeon manager: builds the category and dungeon maps from the
    catalogue, loads the stored drop lists, decides whether a party may enter
    a dungeon and, if so, takes the key and names the warp to run. */
module DungeonManagement {
  import opened Text
  import opened Host
  import opened DungeonDrops
  import opened Dungeons
  import opened DungeonCategories
  import opened DungeonKeys
  import opened PartyIntegration
  import opened Catalogue

  /** The level every party member is taken to have until a level system
      exists (`playerLevel = 100`). */
  const PLACEHOLDER_LEVEL: int := 100

  function PlayerLevel(member: Player): int {
    PLACEHOLDER_LEVEL
  }

  /** The verdict of `canEnterDungeon`, naming the first check that failed. */
  datatype EntryCheck =
    | UnknownDungeon
    | NotLeader
    | NotInParty
    | PartySizeOutOfRange
    | LevelTooLow(member: Player)
    | Eligible

  /** What `enterDungeon` does: refuse with the failed check, stop for lack
      of a key, stop on a key requirement without a key name (the source
      throws a NullPointerException there), or run the warp command. */
  datatype EntryOutcome =
    | Refused(check: EntryCheck)
    | KeyMissing
    | KeyNameMissing
    | Entered(warp: string)

  /** A request to the database to store a dungeon's drop list. */
  datatype DropWrite = DropWrite(dungeonId: string, drops: seq<DungeonDrop>)

  /** The first member, in list order, whose level is below the requirement. */
  function FirstUnderLevelled(members: seq<Player>, requiredLevel: int): (r: Option<Player>)
    ensures r.None? <==> forall k :: 0 <= k < |members| ==> PlayerLevel(members[k]) >= requiredLevel
    ensures r.Some? ==>
      exists k :: 0 <= k < |members| && members[k] == r.value && PlayerLevel(r.value) < requiredLevel
        && forall j :: 0 <= j < k ==> PlayerLevel(members[j]) >= requiredLevel
  {
    if members == [] then None
    else if PlayerLevel(members[0]) < requiredLevel then Some(members[0])
    else
      var r := FirstUnderLevelled(members[1..], requiredLevel);
      r
  }

  /** With the placeholder level, a requirement above 100 turns away every
      party that has a member. */
  lemma PlaceholderLevelCap(members: seq<Player>, requiredLevel: int)
    ensures FirstUnderLevelled(members, requiredLevel).None? <==> members == [] || requiredLevel <= PLACEHOLDER_LEVEL
  {
    if members != [] && requiredLevel > PLACEHOLDER_LEVEL {
      assert PlayerLevel(members[0]) < requiredLevel;
    }
  }

  /** The material named by a key id: the material whose name is the id in
      upper case, or a tripwire hook when no material has that name.
      `materials` stands for the server's material names. */
  function KeyMaterial(keyId: string, materials: set<Material>): (m: Material)
    ensures m == ToUpper(keyId) || m == TRIPWIRE_HOOK
    ensures ToUpper(keyId) in materials ==> m == ToUpper(keyId)
    ensures m != ToUpper(keyId) ==> ToUpper(keyId) !in materials
  {
    var name := ToUpper(keyId);
    if name in materials then name else TRIPWIRE_HOOK
  }

  function LastChar(s: string): string
    requires s != []
  {
    [s[|s| - 1]]
  }

  /** The warp command for a dungeon: three fixed mythology warps, a
      category letter plus the id's last character for the other
      categories, and the lower-cased id otherwise. */
  function WarpCommand(dungeonId: string): (w: string)
    ensures StartsWith(w, "warp ")
  {
    if dungeonId == "mythology_odyssey" then "warp m1"
    else if dungeonId == "mythology_poseidon" then "warp m2"
    else if dungeonId == "mythology_zeus" then "warp m3"
    else if StartsWith(dungeonId, "ancient_") then "warp a" + LastChar(dungeonId)
    else if StartsWith(dungeonId, "fantasy_") then "warp f" + LastChar(dungeonId)
    else if StartsWith(dungeonId, "elemental_") then "warp e" + LastChar(dungeonId)
    else if StartsWith(dungeonId, "cosmic_") then "warp c" + LastChar(dungeonId)
    else if StartsWith(dungeonId, "horror_") then "warp h" + LastChar(dungeonId)
    else "warp " + ToLower(dungeonId)
  }

  /** The warp keeps only the id's last character after the category
      letter, so catalogue dungeons whose ids end alike share a warp. */
  lemma AncientWarpCollision()
    ensures WarpCommand("ancient_atlantis") == WarpCommand("ancient_gardens") == "warp as"
  {
  }

  /** Three fantasy dungeons end in `s` and share one warp. */
  lemma FantasyWarpCollision()
    ensures WarpCommand("fantasy_drakonis") == WarpCommand("fantasy_woods") == WarpCommand("fantasy_caverns") == "warp fs"
  {
  }

  /** Within one of the five lettered categories the warp depends on nothing
      but the id's last character: ids there that end alike share a warp. */
  lemma WarpSharedByLastChar(prefix: string, a: string, b: string)
    requires prefix in ["ancient_", "fantasy_", "elemental_", "cosmic_", "horror_"]
    requires StartsWith(a, prefix) && StartsWith(b, prefix)
    requires a != [] && b != [] && a[|a| - 1] == b[|b| - 1]
    ensures WarpCommand(a) == WarpCommand(b)
    ensures |WarpCommand(a)| == 7
  {
    assert a[0] == prefix[0] && b[0] == prefix[0];
  }

  /** A dungeon object built as its catalogue entry says. */
  predicate Matches(d: Dungeon, s: DungeonSpec)
    reads d`keyId, d`keyDisplayName
  {
    d.id == s.id && d.name == s.name && d.description == s.description && d.tier == s.tier
    && d.requiredLevel == s.requiredLevel && d.minPartySize == s.minPartySize
    && d.maxPartySize == s.maxPartySize && d.icon == s.icon && d.categoryId == s.categoryId
    && (s.key.None? ==> d.keyId == None && d.keyDisplayName == None)
    && (s.key.Some? ==> d.keyId == Some(s.key.value.keyId) && d.keyDisplayName == Some(s.key.value.keyDisplayName))
  }

  /** A category object built as its catalogue entry says. */
  predicate CategoryMatches(c: DungeonCategory, s: CategorySpec) {
    c.id == s.id && c.name == s.name && c.description == s.description && c.icon == s.icon
  }

  /** The ids of a list of dungeons, in order. */
  function IdsOf(ds: seq<Dungeon>): (r: seq<string>)
    ensures |r| == |ds| && forall k :: 0 <= k < |ds| ==> r[k] == ds[k].id
  {
    seq(|ds|, k requires 0 <= k < |ds| => ds[k].id)
  }

  /** The ids, in catalogue order, of the entries filed under `categoryId`. */
  function IdsIn(specs: seq<DungeonSpec>, categoryId: string): seq<string> {
    if specs == [] then []
    else (if specs[0].categoryId == categoryId then [specs[0].id] else []) + IdsIn(specs[1..], categoryId)
  }

  /** The dungeons of a list filed under `categoryId`, in list order. */
  function FiledUnder(ds: seq<Dungeon>, categoryId: string): seq<Dungeon> {
    if ds == [] then []
    else (if ds[0].categoryId == categoryId then [ds[0]] else []) + FiledUnder(ds[1..], categoryId)
  }

  /** The list filed under a category holds exactly the dungeons of that
      category. */
  lemma {:induction false} FiledUnderMembers(ds: seq<Dungeon>, categoryId: string)
    ensures forall k :: 0 <= k < |FiledUnder(ds, categoryId)| ==>
      FiledUnder(ds, categoryId)[k] in ds && FiledUnder(ds, categoryId)[k].categoryId == categoryId
    ensures forall k :: 0 <= k < |ds| && ds[k].categoryId == categoryId ==> ds[k] in FiledUnder(ds, categoryId)
  {
    if ds != [] {
      FiledUnderMembers(ds[1..], categoryId);
      var head := if ds[0].categoryId == categoryId then [ds[0]] else [];
      var r := FiledUnder(ds, categoryId);
      assert r == head + FiledUnder(ds[1..], categoryId);
      forall k | 0 <= k < |ds| && ds[k].categoryId == categoryId
        ensures ds[k] in r
      {
        if k > 0 {
          assert ds[k] == ds[1..][k - 1];
        }
      }
    }
  }

  /** Appending a dungeon appends it to the list of its own category only. */
  lemma {:induction false} FiledUnderSnoc(ds: seq<Dungeon>, d: Dungeon, categoryId: string)
    ensures FiledUnder(ds + [d], categoryId) == FiledUnder(ds, categoryId) + (if d.categoryId == categoryId then [d] else [])
  {
    if ds == [] {
      assert ds + [d] == [d];
    } else {
      var head := if ds[0].categoryId == categoryId then [ds[0]] else [];
      var tail := if d.categoryId == categoryId then [d] else [];
      assert (ds + [d])[0] == ds[0];
      assert (ds + [d])[1..] == ds[1..] + [d];
      FiledUnderSnoc(ds[1..], d, categoryId);
      calc {
        FiledUnder(ds + [d], categoryId);
        head + FiledUnder(ds[1..] + [d], categoryId);
        head + (FiledUnder(ds[1..], categoryId) + tail);
        (head + FiledUnder(ds[1..], categoryId)) + tail;
      }
    }
  }

  /** Dungeons built from the entries one for one are filed in the entries'
      order. */
  lemma {:induction false} FiledUnderIds(ds: seq<Dungeon>, specs: seq<DungeonSpec>, categoryId: string)
    requires |ds| == |specs|
    requires forall k :: 0 <= k < |ds| ==> Matches(ds[k], specs[k])
    ensures IdsOf(FiledUnder(ds, categoryId)) == IdsIn(specs, categoryId)
  {
    if ds != [] {
      FiledUnderIds(ds[1..], specs[1..], categoryId);
      var head := if ds[0].categoryId == categoryId then [ds[0]] else [];
      assert IdsOf(head + FiledUnder(ds[1..], categoryId)) == IdsOf(head) + IdsOf(FiledUnder(ds[1..], categoryId));
    }
  }

  /** The ids of a list of category entries. */
  function CategoryIdsOf(cs: seq<CategorySpec>): set<string> {
    set k | 0 <= k < |cs| :: cs[k].id
  }

  /** The ids of a prefix of the catalogue. */
  function SpecIds(specs: seq<DungeonSpec>): set<string> {
    set k | 0 <= k < |specs| :: specs[k].id
  }

  /** The ids of the first `n` entries, collected one entry at a time. */
  function IdsUpTo(specs: seq<DungeonSpec>, n: nat): set<string>
    requires n <= |specs|
  {
    if n == 0 then {} else IdsUpTo(specs, n - 1) + {specs[n - 1].id}
  }

  /** Collecting the ids one at a time yields the ids of the prefix, and with
      distinct ids the next entry's id is not among them yet. */
  lemma {:induction false} IdsUpToPrefix(specs: seq<DungeonSpec>, n: nat)
    requires n <= |specs|
    ensures IdsUpTo(specs, n) == SpecIds(specs[..n])
    ensures DistinctDungeonIds(specs) && n < |specs| ==> specs[n].id !in IdsUpTo(specs, n)
  {
    if n > 0 {
      IdsUpToPrefix(specs, n - 1);
      assert specs[..n] == specs[..n - 1] + [specs[n - 1]];
      forall x | x in SpecIds(specs[..n])
        ensures x in IdsUpTo(specs, n)
      {
        var k :| 0 <= k < n && specs[..n][k].id == x;
        if k < n - 1 {
          assert specs[..n - 1][k] == specs[..n][k];
        }
      }
      forall x | x in IdsUpTo(specs, n)
        ensures x in SpecIds(specs[..n])
      {
        if x in IdsUpTo(specs, n - 1) {
          var k :| 0 <= k < n - 1 && specs[..n - 1][k].id == x;
          assert specs[..n][k] == specs[..n - 1][k];
        } else {
          assert specs[..n][n - 1].id == x;
        }
      }
    }
  }

  class DungeonManager {
    var categories: map<string, DungeonCategory>
    var dungeons: map<string, Dungeon>

    /** The maps are keyed by the objects' own ids, and every dungeon sits
        in the list of exactly the category its `categoryId` names. */
    predicate Valid()
      reads this, categories.Values
    {
      (forall id :: id in dungeons ==> dungeons[id].id == id)
      && (forall c :: c in categories ==> categories[c].id == c)
      && (forall c, k :: c in categories && 0 <= k < |categories[c].dungeons| ==>
            categories[c].dungeons[k].id in dungeons
            && dungeons[categories[c].dungeons[k].id] == categories[c].dungeons[k]
            && categories[c].dungeons[k].categoryId == c)
      && (forall id :: id in dungeons ==>
            dungeons[id].categoryId in categories && dungeons[id] in categories[dungeons[id].categoryId].dungeons)
    }

    /** The state after `initializeCategories` and `initializeDungeons`
        over the category entries `cs` and the dungeon entries `ds`: exactly
        those entries, each category listing its dungeons in entry order. */
    predicate HoldsCatalogue(cs: seq<CategorySpec>, ds: seq<DungeonSpec>)
      reads this, categories.Values, dungeons.Values`keyId, dungeons.Values`keyDisplayName
    {
      Valid()
      && categories.Keys == CategoryIdsOf(cs)
      && dungeons.Keys == SpecIds(ds)
      && (forall k :: 0 <= k < |cs| ==> CategoryMatches(categories[cs[k].id], cs[k]))
      && (forall k :: 0 <= k < |ds| ==> Matches(dungeons[ds[k].id], ds[k]))
      && (forall c :: c in categories ==> IdsOf(categories[c].dungeons) == IdsIn(ds, c))
    }

    /** The manager as the plugin builds it: the catalogue, then the drop
        lists the database returned (`loadedDrops`, the result of
        `loadAllDrops`). */
    constructor (loadedDrops: map<string, seq<DungeonDrop>>)
      ensures HoldsCatalogue(CATEGORY_SPECS, DUNGEON_SPECS)
      ensures forall id :: id in dungeons ==>
        dungeons[id].possibleDrops == (if id in loadedDrops then loadedDrops[id] else [])
    {
      categories := map[];
      dungeons := map[];
      new;
      CategoryIdsDistinct();
      CatalogueWellFormed();
      Populate(CATEGORY_SPECS, DUNGEON_SPECS, loadedDrops);
    }

    /** The constructor's three steps over any category and dungeon entries
        with distinct ids whose dungeons name listed categories. */
    method Populate(cs: seq<CategorySpec>, ds: seq<DungeonSpec>, loadedDrops: map<string, seq<DungeonDrop>>)
      requires DistinctCategoryIds(cs) && DistinctDungeonIds(ds)
      requires forall k :: 0 <= k < |ds| ==> ds[k].categoryId in CategoryIdsOf(cs)
      requires categories == map[] && dungeons == map[]
      modifies this
      ensures HoldsCatalogue(cs, ds)
      ensures forall id :: id in dungeons ==>
        dungeons[id].possibleDrops == (if id in loadedDrops then loadedDrops[id] else [])
    {
      Build(cs, ds);
      LoadKeepingCatalogue(cs, ds, loadedDrops);
    }

    /** `loadDropsFromDatabase` on a built catalogue: the drop lists are
        replaced and the catalogue state stays as it was. */
    method LoadKeepingCatalogue(ghost cs: seq<CategorySpec>, ghost ds: seq<DungeonSpec>,
                                loadedDrops: map<string, seq<DungeonDrop>>)
      requires HoldsCatalogue(cs, ds)
      modifies dungeons.Values`possibleDrops
      ensures HoldsCatalogue(cs, ds)
      ensures forall id :: id in dungeons ==>
        dungeons[id].possibleDrops == (if id in loadedDrops then loadedDrops[id] else old(dungeons[id].possibleDrops))
    {
      LoadDropsFromDatabase(loadedDrops);
    }

    /** `initializeCategories` followed by `initializeDungeons`. */
    method Build(cs: seq<CategorySpec>, ds: seq<DungeonSpec>)
      requires DistinctCategoryIds(cs) && DistinctDungeonIds(ds)
      requires forall k :: 0 <= k < |ds| ==> ds[k].categoryId in CategoryIdsOf(cs)
      requires categories == map[] && dungeons == map[]
      modifies this
      ensures HoldsCatalogue(cs, ds)
      ensures forall id :: id in dungeons ==> dungeons[id].possibleDrops == [] && fresh(dungeons[id])
    {
      InitializeCategories(cs);
      InitializeDungeons(ds);
    }

    /** `initializeCategories`: one empty category per entry. */
    method InitializeCategories(cs: seq<CategorySpec>)
      requires DistinctCategoryIds(cs)
      requires categories == map[] && dungeons == map[]
      modifies this`categories
      ensures categories.Keys == CategoryIdsOf(cs)
      ensures forall k :: 0 <= k < |cs| ==> CategoryMatches(categories[cs[k].id], cs[k])
      ensures forall c :: c in categories ==> categories[c].id == c && categories[c].dungeons == [] && fresh(categories[c])
      ensures Valid()
    {
      var i := 0;
      while i < |cs|
        invariant 0 <= i <= |cs|
        invariant categories.Keys == CategoryIdsOf(cs[..i])
        invariant forall k :: 0 <= k < i ==> CategoryMatches(categories[cs[k].id], cs[k])
        invariant forall c :: c in categories ==> categories[c].id == c && categories[c].dungeons == [] && fresh(categories[c])
      {
        var spec := cs[i];
        var category := new DungeonCategory(spec.id, spec.name, spec.description, spec.icon);
        categories := categories[spec.id := category];
        assert cs[..i + 1][..i] == cs[..i];
        i := i + 1;
      }
      assert cs[..i] == cs;
    }

    /** `initializeDungeons`: each entry becomes a dungeon, put in the map
        under its id and appended to its category's list. */
    method InitializeDungeons(ds: seq<DungeonSpec>)
      requires DistinctDungeonIds(ds)
      requires forall k :: 0 <= k < |ds| ==> ds[k].categoryId in categories
      requires dungeons == map[]
      requires forall c :: c in categories ==> categories[c].id == c && categories[c].dungeons == []
      modifies this`dungeons, categories.Values
      ensures categories == old(categories)
      ensures Valid()
      ensures dungeons.Keys == SpecIds(ds)
      ensures forall k :: 0 <= k < |ds| ==> Matches(dungeons[ds[k].id], ds[k])
      ensures forall id :: id in dungeons ==> dungeons[id].possibleDrops == [] && fresh(dungeons[id])
      ensures forall c :: c in categories ==> IdsOf(categories[c].dungeons) == IdsIn(ds, c)
    {
      ghost var built := FileAll(ds);
      BuiltIsValid(ds, built);
    }

    /** The loop of `initializeDungeons`: one dungeon made and filed per
        entry, in entry order. */
    method FileAll(ds: seq<DungeonSpec>) returns (ghost built: seq<Dungeon>)
      requires DistinctDungeonIds(ds)
      requires forall k :: 0 <= k < |ds| ==> ds[k].categoryId in categories
      requires dungeons == map[]
      requires forall c :: c in categories ==> categories[c].id == c && categories[c].dungeons == []
      modifies this`dungeons, categories.Values
      ensures categories == old(categories)
      ensures Filed(ds, |ds|, built)
      ensures forall d :: d in built ==> fresh(d)
    {
      var i := 0;
      built := [];
      while i < |ds|
        invariant i <= |ds|
        invariant categories == old(categories)
        invariant Filed(ds, i, built)
        invariant forall k :: 0 <= k < |built| ==> fresh(built[k])
      {
        var dungeon := PutEntry(ds, i, built);
        built := built + [dungeon];
        i := i + 1;
      }
    }

    /** The state after the first `n` entries of `initializeDungeons`,
        `built` being the dungeons made from them: each is in the map under
        its entry's id, matches its entry, and sits in its category's list,
        which lists them in entry order. */
    predicate Filed(ds: seq<DungeonSpec>, n: nat, built: seq<Dungeon>)
      reads this, categories.Values, set d | d in built
    {
      n <= |ds| && |built| == n
      && (forall c :: c in categories ==> categories[c].id == c)
      && dungeons.Keys == IdsUpTo(ds, n)
      && (forall k :: 0 <= k < n ==> ds[k].id in dungeons && dungeons[ds[k].id] == built[k])
      && (forall k :: 0 <= k < n ==> Matches(built[k], ds[k]) && built[k].possibleDrops == [])
      && (forall c :: c in categories ==> categories[c].dungeons == FiledUnder(built, c))
    }

    /** One step of `initializeDungeons` keeps `Filed`. */
    method PutEntry(ds: seq<DungeonSpec>, i: nat, ghost built: seq<Dungeon>) returns (dungeon: Dungeon)
      requires DistinctDungeonIds(ds) && i < |ds|
      requires ds[i].categoryId in categories
      requires Filed(ds, i, built)
      modifies this`dungeons, categories[ds[i].categoryId]
      ensures fresh(dungeon) && dungeon.possibleDrops == []
      ensures dungeons == old(dungeons)[ds[i].id := dungeon]
      ensures Filed(ds, i + 1, built + [dungeon])
    {
      label Step:
      IdsUpToPrefix(ds, i);
      dungeon := AddFromSpec(ds[i]);
      forall c | c in categories
        ensures categories[c].dungeons == FiledUnder(built + [dungeon], c)
      {
        FiledUnderSnoc(built, dungeon, c);
      }
      forall k | 0 <= k < i
        ensures Matches(built[k], ds[k]) && built[k].possibleDrops == []
      {
        assert old@Step(Matches(built[k], ds[k]));
        assert built[k].keyId == old@Step(built[k].keyId) && built[k].keyDisplayName == old@Step(built[k].keyDisplayName);
        assert built[k].possibleDrops == old@Step(built[k].possibleDrops);
      }
      forall k | 0 <= k < i
        ensures ds[k].id in dungeons && dungeons[ds[k].id] == built[k]
      {
        assert ds[k].id != ds[i].id;
      }
    }

    /** One entry of `initializeDungeons`: the dungeon is created, put in
        the map under its id and appended to its category's list. */
    method AddFromSpec(spec: DungeonSpec) returns (dungeon: Dungeon)
      requires spec.categoryId in categories
      modifies this`dungeons, categories[spec.categoryId]
      ensures fresh(dungeon) && Matches(dungeon, spec) && dungeon.possibleDrops == []
      ensures dungeons == old(dungeons)[spec.id := dungeon]
      ensures categories[spec.categoryId].dungeons == old(categories[spec.categoryId].dungeons) + [dungeon]
    {
      if spec.key.None? {
        dungeon := new Dungeon(spec.id, spec.name, spec.description, spec.tier, spec.requiredLevel,
                               spec.minPartySize, spec.maxPartySize, spec.icon, spec.categoryId);
      } else {
        dungeon := new Dungeon.WithKey(spec.id, spec.name, spec.description, spec.tier, spec.requiredLevel,
                                       spec.minPartySize, spec.maxPartySize, spec.icon, spec.categoryId,
                                       Some(spec.key.value.keyId), Some(spec.key.value.keyDisplayName));
      }
      dungeons := dungeons[spec.id := dungeon];
      categories[spec.categoryId].AddDungeon(dungeon);
    }

    /** After all entries, the map holds exactly the entry ids, each under
        its own id, mapped to one of the new dungeons with no drops yet. */
    lemma BuiltEntries(ds: seq<DungeonSpec>, built: seq<Dungeon>)
      requires Filed(ds, |ds|, built)
      ensures dungeons.Keys == SpecIds(ds)
      ensures forall id :: id in dungeons ==>
        dungeons[id].id == id && dungeons[id] in built && dungeons[id].possibleDrops == []
    {
      IdsUpToPrefix(ds, |ds|);
      assert ds[..|ds|] == ds;
      forall id | id in dungeons
        ensures dungeons[id].id == id && dungeons[id] in built && dungeons[id].possibleDrops == []
      {
        var k :| 0 <= k < |ds| && ds[k].id == id;
        assert dungeons[id] == built[k];
      }
    }

    /** The state `initializeDungeons` leaves behind satisfies `Valid`. */
    lemma BuiltIsValid(ds: seq<DungeonSpec>, built: seq<Dungeon>)
      requires forall k :: 0 <= k < |ds| ==> ds[k].categoryId in categories
      requires Filed(ds, |ds|, built)
      ensures Valid()
      ensures dungeons.Keys == SpecIds(ds)
      ensures forall c :: c in categories ==> IdsOf(categories[c].dungeons) == IdsIn(ds, c)
      ensures forall id :: id in dungeons ==> dungeons[id] in built && dungeons[id].possibleDrops == []
    {
      BuiltEntries(ds, built);
      forall c | c in categories
        ensures IdsOf(categories[c].dungeons) == IdsIn(ds, c)
      {
        FiledUnderIds(built, ds, c);
      }
      CategoryListsFiled(ds, built);
      forall id | id in dungeons
        ensures dungeons[id].categoryId in categories && dungeons[id] in categories[dungeons[id].categoryId].dungeons
      {
        var k :| 0 <= k < |built| && built[k] == dungeons[id];
        FiledUnderMembers(built, built[k].categoryId);
      }
    }

    /** After all entries, every listed dungeon is the map's dungeon for its
        id and is filed under its own category. */
    lemma CategoryListsFiled(ds: seq<DungeonSpec>, built: seq<Dungeon>)
      requires Filed(ds, |ds|, built)
      ensures forall c, j :: c in categories && 0 <= j < |categories[c].dungeons| ==>
        categories[c].dungeons[j].id in dungeons
        && dungeons[categories[c].dungeons[j].id] == categories[c].dungeons[j]
        && categories[c].dungeons[j].categoryId == c
    {
      forall c, j | c in categories && 0 <= j < |categories[c].dungeons|
        ensures categories[c].dungeons[j].id in dungeons
        ensures dungeons[categories[c].dungeons[j].id] == categories[c].dungeons[j]
        ensures categories[c].dungeons[j].categoryId == c
      {
        FiledUnderMembers(built, c);
        var e := categories[c].dungeons[j];
        var k :| 0 <= k < |built| && built[k] == e;
        assert ds[k].id == e.id;
      }
    }

    /** `loadDropsFromDatabase`: every loaded list for a known dungeon
        replaces that dungeon's drops, in the loaded order; lists for
        unknown ids are ignored. The entries are visited in no particular
        order. */
    method LoadDropsFromDatabase(allDrops: map<string, seq<DungeonDrop>>)
      requires forall id :: id in dungeons ==> dungeons[id].id == id
      modifies dungeons.Values`possibleDrops
      ensures forall id :: id in dungeons ==>
        dungeons[id].possibleDrops == (if id in allDrops then allDrops[id] else old(dungeons[id].possibleDrops))
      ensures forall id :: id in dungeons ==>
        dungeons[id].keyId == old(dungeons[id].keyId) && dungeons[id].keyDisplayName == old(dungeons[id].keyDisplayName)
    {
      var remaining := allDrops.Keys;
      while remaining != {}
        invariant remaining <= allDrops.Keys
        invariant forall id :: id in dungeons ==>
          dungeons[id].possibleDrops == (if id in allDrops && id !in remaining then allDrops[id] else old(dungeons[id].possibleDrops))
      {
        var id :| id in remaining;
        remaining := remaining - {id};
        if id in dungeons {
          var dungeon := dungeons[id];
          var drops := allDrops[id];
          dungeon.ClearDrops();
          var j := 0;
          while j < |drops|
            invariant 0 <= j <= |drops|
            invariant dungeon.possibleDrops == drops[..j]
            invariant forall other :: other in dungeons && other != id ==>
              dungeons[other].possibleDrops == (if other in allDrops && other !in remaining then allDrops[other] else old(dungeons[other].possibleDrops))
          {
            dungeon.AddDrop(drops[j]);
            j := j + 1;
          }
          assert drops[..j] == drops;
        }
      }
    }

    /** `canEnterDungeon`: the checks in the source's order, answering with
        the first that fails. */
    function CanEnterDungeon(dungeonId: string, party: PartyView): (r: EntryCheck)
      reads this
      ensures r == UnknownDungeon <==> dungeonId !in dungeons
      ensures r == NotLeader <==> dungeonId in dungeons && !party.isLeader
      ensures r == NotInParty <==> dungeonId in dungeons && party.isLeader && !party.inParty
      ensures r == PartySizeOutOfRange <==>
        dungeonId in dungeons && party.isLeader && party.inParty
        && !(dungeons[dungeonId].minPartySize <= party.size <= dungeons[dungeonId].maxPartySize)
      ensures r.LevelTooLow? <==>
        dungeonId in dungeons && party.isLeader && party.inParty
        && dungeons[dungeonId].minPartySize <= party.size <= dungeons[dungeonId].maxPartySize
        && exists k :: 0 <= k < |party.members| && PlayerLevel(party.members[k]) < dungeons[dungeonId].requiredLevel
      ensures r == Eligible <==>
        dungeonId in dungeons && party.isLeader && party.inParty
        && dungeons[dungeonId].minPartySize <= party.size <= dungeons[dungeonId].maxPartySize
        && forall k :: 0 <= k < |party.members| ==> PlayerLevel(party.members[k]) >= dungeons[dungeonId].requiredLevel
    {
      if dungeonId !in dungeons then UnknownDungeon
      else
        var dungeon := dungeons[dungeonId];
        if !party.isLeader then NotLeader
        else if !party.inParty then NotInParty
        else if party.size < dungeon.minPartySize || party.size > dungeon.maxPartySize then PartySizeOutOfRange
        else match FirstUnderLevelled(party.members, dungeon.requiredLevel)
          case Some(member) => LevelTooLow(member)
          case None => Eligible
    }

    /** `enterDungeon`: nothing happens unless the party is eligible; a key,
        when required, is taken from the leader's inventory before the warp,
        and entry stops if there is none. */
    method EnterDungeon(dungeonId: string, party: PartyView, inventory: array<Slot>, materials: set<Material>)
      returns (outcome: EntryOutcome)
      modifies inventory
      ensures CanEnterDungeon(dungeonId, party) != Eligible ==>
        outcome == Refused(CanEnterDungeon(dungeonId, party)) && inventory[..] == old(inventory[..])
      ensures CanEnterDungeon(dungeonId, party) == Eligible && !dungeons[dungeonId].RequiresKey() ==>
        outcome == Entered(WarpCommand(dungeonId)) && inventory[..] == old(inventory[..])
      ensures CanEnterDungeon(dungeonId, party) == Eligible && dungeons[dungeonId].RequiresKey()
              && dungeons[dungeonId].keyDisplayName.None? ==>
        outcome == KeyNameMissing && inventory[..] == old(inventory[..])
      ensures CanEnterDungeon(dungeonId, party) == Eligible && dungeons[dungeonId].RequiresKey()
              && dungeons[dungeonId].keyDisplayName.Some? ==>
        var d := dungeons[dungeonId];
        var key := DungeonKey(d.keyId.value, d.keyDisplayName.value, KeyMaterial(d.keyId.value, materials));
        inventory[..] == key.AfterConsume(old(inventory[..]))
        && (key.FirstKeyIndex(old(inventory[..])).Some? ==> outcome == Entered(WarpCommand(dungeonId)))
        && (key.FirstKeyIndex(old(inventory[..])).None? ==> outcome == KeyMissing)
    {
      var check := CanEnterDungeon(dungeonId, party);
      if check != Eligible {
        return Refused(check);
      }
      var dungeon := dungeons[dungeonId];
      if dungeon.RequiresKey() {
        var keyId := dungeon.keyId.value;
        if dungeon.keyDisplayName.None? {
          return KeyNameMissing;
        }
        var key := DungeonKey(keyId, dungeon.keyDisplayName.value, KeyMaterial(keyId, materials));
        var consumed := key.ConsumeKey(inventory);
        if !consumed {
          return KeyMissing;
        }
      }
      return Entered(WarpCommand(dungeonId));
    }

    /** `saveDrops`: the write handed to the database, none for an unknown id. */
    function SaveDrops(dungeonId: string): (w: Option<DropWrite>)
      reads this, dungeons.Values
      ensures w.None? <==> dungeonId !in dungeons
      ensures w.Some? ==> w.value.dungeonId == dungeonId && w.value.drops == dungeons[dungeonId].possibleDrops
    {
      if dungeonId in dungeons then Some(DropWrite(dungeonId, dungeons[dungeonId].possibleDrops)) else None
    }

    function GetCategory(categoryId: string): (r: Option<DungeonCategory>)
      reads this
      ensures r.Some? <==> categoryId in categories
      ensures r.Some? ==> r.value == categories[categoryId]
    {
      if categoryId in categories then Some(categories[categoryId]) else None
    }

    function GetDungeon(dungeonId: string): (r: Option<Dungeon>)
      reads this
      ensures r.Some? <==> dungeonId in dungeons
      ensures r.Some? ==> r.value == dungeons[dungeonId]
    {
      if dungeonId in dungeons then Some(dungeons[dungeonId]) else None
    }

    /** `getDungeonsByCategory`: the category's list, none for an unknown id. */
    function GetDungeonsByCategory(categoryId: string): (r: Option<seq<Dungeon>>)
      reads this, categories.Values
      ensures r.Some? <==> categoryId in categories
      ensures r.Some? ==> r.value == categories[categoryId].dungeons
    {
      if categoryId in categories then Some(categories[categoryId].dungeons) else None
    }

    /** Each dungeon is listed under its own category and no other. */
    lemma CategoriesPartitionDungeons(id: string, c: string)
      requires Valid() && id in dungeons && c in categories
      ensures dungeons[id] in categories[c].dungeons <==> c == dungeons[id].categoryId
    {
      var d := dungeons[id];
      if c == d.categoryId {
        var ids := IdsOf(categories[c].dungeons);
        var k :| 0 <= k < |ids| && ids[k] == id;
        assert categories[c].dungeons[k] == d;
      }
      if d in categories[c].dungeons {
        var k :| 0 <= k < |categories[c].dungeons| && categories[c].dungeons[k] == d;
      }
    }

    /** Under the party bridge's fixed answers every known dungeon is refused
        for want of a party: the leader check passes, the party check never
        does. */
    lemma StubsBlockEntry(api: PartyIntegrationApi, leader: Player, dungeonId: string)
      requires dungeonId in dungeons
      ensures CanEnterDungeon(dungeonId, api.View(leader)) == NotInParty
    {
    }
  }
}
