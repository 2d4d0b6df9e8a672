/** The fixed catalogue the dungeon manager builds at start-up: six
    categories and thirty dungeons, in the order the source creates them. */
module Catalogue {
  import opened Text
  import opened Host

  datatype CategorySpec = CategorySpec(id: string, name: string, description: string, icon: Material)

  /** The key a dungeon is built with: an id naming the key's material and the
      key's display name, with `&` colour codes. */
  datatype KeySpec = KeySpec(keyId: string, keyDisplayName: string)

  datatype DungeonSpec = DungeonSpec(
    id: string, name: string, description: string, tier: int, requiredLevel: int,
    minPartySize: int, maxPartySize: int, icon: Material, categoryId: string, key: Option<KeySpec>)

  const CATEGORY_SPECS: seq<CategorySpec> := [
    CategorySpec("mythology", "Mythology", "Ancient legends and mythological adventures", "GOLDEN_HELMET"),
    CategorySpec("ancient", "Ancient Civilizations", "Explore the wonders of the ancient world", "CHISELED_SANDSTONE"),
    CategorySpec("fantasy", "Fantasy Realms", "Magical worlds of fantasy and wonder", "DRAGON_EGG"),
    CategorySpec("elemental", "Elemental Challenges", "Master the elemental forces", "BLAZE_POWDER"),
    CategorySpec("cosmic", "Cosmic Adventures", "Journey to the stars and beyond", "END_PORTAL_FRAME"),
    CategorySpec("horror", "Horror", "Face your deepest fears", "WITHER_SKELETON_SKULL")
  ]

  /** The Mythology dungeons. */
  const MYTHOLOGY_DUNGEONS: seq<DungeonSpec> := [
    DungeonSpec("mythology_odyssey", "The Odyssey of Shadows",
      "Journey through the trials of Odysseus with dark twists",
      1, 20, 1, 3, "TRIDENT", "mythology", Some(KeySpec("iron_ingot", "&2Broken Armor Piece"))),
    DungeonSpec("mythology_poseidon", "Poseidon's Mist Isle",
      "Navigate the treacherous waters of Poseidon's domain",
      2, 40, 2, 4, "HEART_OF_THE_SEA", "mythology", None),
    DungeonSpec("mythology_zeus", "Mount Olympus",
      "Challenge the gods atop Mount Olympus",
      3, 60, 3, 5, "LIGHTNING_ROD", "mythology", None),
    DungeonSpec("mythology_daedalus", "Daedalus' Eternal Labyrinth",
      "Find your way through the ever-changing maze",
      4, 80, 3, 5, "COBWEB", "mythology", None),
    DungeonSpec("mythology_souls", "Fields of Immortal Souls",
      "Journey through the afterlife to challenge Hades himself",
      5, 100, 5, 5, "SOUL_LANTERN", "mythology", None)
  ]

  /** The Ancient Civilizations dungeons. */
  const ANCIENT_DUNGEONS: seq<DungeonSpec> := [
    DungeonSpec("ancient_atlantis", "Sunken Spires of Atlantis",
      "Explore the mysterious underwater city",
      1, 25, 2, 3, "PRISMARINE_BRICKS", "ancient", None),
    DungeonSpec("ancient_pyramid", "Pyramid of Pharaoh Khufu's Curse",
      "Navigate the trapped corridors of the ancient pyramid",
      2, 45, 2, 4, "SANDSTONE_STAIRS", "ancient", None),
    DungeonSpec("ancient_gardens", "Hanging Gardens of Queen Amytis",
      "Discover the secrets hidden within the legendary gardens",
      3, 65, 3, 4, "FLOWERING_AZALEA", "ancient", None),
    DungeonSpec("ancient_colosseum", "Bloodstained Colosseum of Emperor Titus",
      "Fight for glory in the ancient Roman arena",
      4, 85, 3, 5, "IRON_BARS", "ancient", None),
    DungeonSpec("ancient_wall", "Dragon Emperor's Forbidden Wall",
      "Scale the massive wall and face the guardians within",
      5, 105, 4, 5, "MOSSY_STONE_BRICK_WALL", "ancient", None)
  ]

  /** The Fantasy Realms dungeons. */
  const FANTASY_DUNGEONS: seq<DungeonSpec> := [
    DungeonSpec("fantasy_drakonis", "Lair of Drakonis the Undying",
      "Confront the immortal dragon in its volcanic lair",
      1, 30, 2, 3, "DRAGON_HEAD", "fantasy", None),
    DungeonSpec("fantasy_woods", "Whispering Woods of Eternal Twilight",
      "Navigate the enchanted forest where day never comes",
      2, 50, 2, 4, "DARK_OAK_LOG", "fantasy", None),
    DungeonSpec("fantasy_caverns", "Crystal Caverns of the Fae Kingdom",
      "Discover the hidden realm of the fae beneath the earth",
      3, 70, 3, 4, "AMETHYST_CLUSTER", "fantasy", None),
    DungeonSpec("fantasy_spire", "Celestial Spire of the Ascended Mage",
      "Climb the tower of the most powerful wizard in the realm",
      4, 90, 3, 5, "END_ROD", "fantasy", None),
    DungeonSpec("fantasy_citadel", "Shadowfell Citadel of the Banished King",
      "Enter the dark fortress of the exiled monarch",
      5, 110, 4, 5, "NETHERITE_BLOCK", "fantasy", None)
  ]

  /** The Elemental Challenges dungeons. */
  const ELEMENTAL_DUNGEONS: seq<DungeonSpec> := [
    DungeonSpec("elemental_inferno", "Inferno Depths of the Fire Titan",
      "Descend into the molten core to challenge the Fire Titan",
      1, 35, 2, 3, "MAGMA_BLOCK", "elemental", None),
    DungeonSpec("elemental_trench", "Abyssal Trench of the Kraken",
      "Dive into the deepest ocean to face the legendary sea monster",
      2, 55, 2, 4, "DARK_PRISMARINE", "elemental", None),
    DungeonSpec("elemental_peaks", "Windswept Peaks of the Storm Eagles",
      "Ascend the highest mountains where the storm eagles nest",
      3, 75, 3, 4, "FEATHER", "elemental", None),
    DungeonSpec("elemental_core", "Earthen Core of the Ancient Golem",
      "Journey to the center of the earth to awaken the stone guardian",
      4, 95, 3, 5, "MOSSY_COBBLESTONE", "elemental", None),
    DungeonSpec("elemental_sanctum", "Tempest Sanctum of the Lightning Lord",
      "Brave the eternal storm to challenge the master of lightning",
      5, 115, 4, 5, "LIGHTNING_ROD", "elemental", None)
  ]

  /** The Cosmic Adventures dungeons. */
  const COSMIC_DUNGEONS: seq<DungeonSpec> := [
    DungeonSpec("cosmic_belt", "Shattered Belt of the Fallen Star",
      "Navigate the asteroid field of a destroyed celestial body",
      1, 40, 2, 3, "NETHER_STAR", "cosmic", None),
    DungeonSpec("cosmic_xeno", "Xeno-9: The Living Planet",
      "Explore a sentient world that may not want you to leave",
      2, 60, 2, 4, "SLIME_BLOCK", "cosmic", None),
    DungeonSpec("cosmic_corridor", "Astral Corridor of Distorted Reality",
      "Travel through a passage where the laws of physics don't apply",
      3, 80, 3, 4, "ENDER_PEARL", "cosmic", None),
    DungeonSpec("cosmic_nexus", "Nebula Nexus of the Cosmic Entities",
      "Confront the ancient beings that exist between the stars",
      4, 100, 3, 5, "PURPLE_STAINED_GLASS", "cosmic", None),
    DungeonSpec("cosmic_horizon", "Event Horizon of Eternal Darkness",
      "Venture to the edge of a black hole where time stands still",
      5, 120, 4, 5, "BLACK_CONCRETE", "cosmic", None)
  ]

  /** The Horror dungeons. */
  const HORROR_DUNGEONS: seq<DungeonSpec> := [
    DungeonSpec("horror_asylum", "Screaming Halls of Arkham Asylum",
      "Survive the nightmarish corridors of the abandoned mental institution",
      1, 45, 2, 3, "IRON_DOOR", "horror", None),
    DungeonSpec("horror_manor", "Bloodstained Manor of Lord Varkill",
      "Uncover the dark secrets of the vampire lord's estate",
      2, 65, 2, 4, "REDSTONE", "horror", None),
    DungeonSpec("horror_cemetery", "Forgotten Cemetery of Lost Souls",
      "Walk among the restless dead in the ancient burial ground",
      3, 85, 3, 4, "SKELETON_SKULL", "horror", None),
    DungeonSpec("horror_dimension", "Nightmare Dimension of the Mind Flayer",
      "Enter the realm of a creature that feeds on fear and thought",
      4, 105, 3, 5, "ENDER_EYE", "horror", None),
    DungeonSpec("horror_torment", "Halls of Torment",
      "Face your deepest fears in the labyrinth of eternal suffering",
      5, 125, 4, 5, "SOUL_FIRE", "horror", None)
  ]

  /** Every dungeon, category block after category block. */
  const DUNGEON_SPECS: seq<DungeonSpec> :=
    MYTHOLOGY_DUNGEONS + ANCIENT_DUNGEONS + FANTASY_DUNGEONS + ELEMENTAL_DUNGEONS + COSMIC_DUNGEONS + HORROR_DUNGEONS

  /** Whether a category with this id is in the catalogue. */
  predicate IsCategoryId(c: string) {
    exists k :: 0 <= k < |CATEGORY_SPECS| && CATEGORY_SPECS[k].id == c
  }

  /** The shape every catalogued dungeon has: a tier from 1 to 5, a party
      size range that is not empty, and a category that exists. */
  predicate WellFormedSpec(d: DungeonSpec) {
    1 <= d.tier <= 5 && d.minPartySize <= d.maxPartySize && IsCategoryId(d.categoryId)
  }

  /** The id begins with the category's id and an underscore. */
  predicate IdPrefixed(d: DungeonSpec) {
    StartsWith(d.id, d.categoryId + "_")
  }

  predicate AllPrefixed(ds: seq<DungeonSpec>) {
    forall k :: 0 <= k < |ds| ==> IdPrefixed(ds[k])
  }

  lemma PrefixedJoin(a: seq<DungeonSpec>, b: seq<DungeonSpec>)
    requires AllPrefixed(a) && AllPrefixed(b)
    ensures AllPrefixed(a + b)
  {
    forall k | 0 <= k < |a + b|
      ensures IdPrefixed((a + b)[k])
    {
      if k >= |a| {
        assert (a + b)[k] == b[k - |a|];
      }
    }
  }

  predicate DistinctCategoryIds(cs: seq<CategorySpec>) {
    forall i, j :: 0 <= i < j < |cs| ==> cs[i].id != cs[j].id
  }

  predicate DistinctDungeonIds(ds: seq<DungeonSpec>) {
    forall i, j :: 0 <= i < j < |ds| ==> ds[i].id != ds[j].id
  }

  predicate AllWellFormed(ds: seq<DungeonSpec>) {
    forall k :: 0 <= k < |ds| ==> WellFormedSpec(ds[k])
  }

  /** Every id in `ds` is non-empty and begins with a character of `initials`. */
  predicate InitialsIn(ds: seq<DungeonSpec>, initials: set<char>) {
    forall k :: 0 <= k < |ds| ==> |ds[k].id| > 0 && ds[k].id[0] in initials
  }

  /** Two blocks whose ids start with different characters join into one
      block whose ids are still distinct. */
  lemma JoinBlocks(a: seq<DungeonSpec>, b: seq<DungeonSpec>, sa: set<char>, sb: set<char>)
    requires DistinctDungeonIds(a) && AllWellFormed(a) && InitialsIn(a, sa)
    requires DistinctDungeonIds(b) && AllWellFormed(b) && InitialsIn(b, sb)
    requires sa !! sb
    ensures DistinctDungeonIds(a + b) && AllWellFormed(a + b) && InitialsIn(a + b, sa + sb)
  {
    var ab := a + b;
    forall i, j | 0 <= i < j < |ab|
      ensures ab[i].id != ab[j].id
    {
      if j < |a| {
        assert ab[i] == a[i] && ab[j] == a[j];
      } else if i >= |a| {
        assert ab[i] == b[i - |a|] && ab[j] == b[j - |a|];
      } else {
        assert ab[i].id[0] in sa && ab[j].id[0] in sb;
      }
    }
  }

  lemma MythologyIds()
    ensures DistinctDungeonIds(MYTHOLOGY_DUNGEONS) && InitialsIn(MYTHOLOGY_DUNGEONS, {'m'})
  {
  }

  lemma MythologyWellFormed()
    ensures AllWellFormed(MYTHOLOGY_DUNGEONS)
  {
    assert CATEGORY_SPECS[0].id == "mythology";
  }

  lemma AncientIds()
    ensures DistinctDungeonIds(ANCIENT_DUNGEONS) && InitialsIn(ANCIENT_DUNGEONS, {'a'})
  {
  }

  lemma AncientWellFormed()
    ensures AllWellFormed(ANCIENT_DUNGEONS)
  {
    assert CATEGORY_SPECS[1].id == "ancient";
  }

  lemma FantasyIds()
    ensures DistinctDungeonIds(FANTASY_DUNGEONS) && InitialsIn(FANTASY_DUNGEONS, {'f'})
  {
  }

  lemma FantasyWellFormed()
    ensures AllWellFormed(FANTASY_DUNGEONS)
  {
    assert CATEGORY_SPECS[2].id == "fantasy";
  }

  lemma ElementalIds()
    ensures DistinctDungeonIds(ELEMENTAL_DUNGEONS) && InitialsIn(ELEMENTAL_DUNGEONS, {'e'})
  {
  }

  lemma ElementalWellFormed()
    ensures AllWellFormed(ELEMENTAL_DUNGEONS)
  {
    assert CATEGORY_SPECS[3].id == "elemental";
  }

  lemma CosmicIds()
    ensures DistinctDungeonIds(COSMIC_DUNGEONS) && InitialsIn(COSMIC_DUNGEONS, {'c'})
  {
  }

  lemma CosmicWellFormed()
    ensures AllWellFormed(COSMIC_DUNGEONS)
  {
    assert CATEGORY_SPECS[4].id == "cosmic";
  }

  lemma HorrorIds()
    ensures DistinctDungeonIds(HORROR_DUNGEONS) && InitialsIn(HORROR_DUNGEONS, {'h'})
  {
  }

  lemma HorrorWellFormed()
    ensures AllWellFormed(HORROR_DUNGEONS)
  {
    assert CATEGORY_SPECS[5].id == "horror";
  }

  lemma MythologyPrefixed()
    ensures AllPrefixed(MYTHOLOGY_DUNGEONS)
  {
  }

  lemma AncientPrefixed()
    ensures AllPrefixed(ANCIENT_DUNGEONS)
  {
  }

  lemma FantasyPrefixed()
    ensures AllPrefixed(FANTASY_DUNGEONS)
  {
  }

  lemma ElementalPrefixed()
    ensures AllPrefixed(ELEMENTAL_DUNGEONS)
  {
  }

  lemma CosmicPrefixed()
    ensures AllPrefixed(COSMIC_DUNGEONS)
  {
  }

  lemma HorrorPrefixed()
    ensures AllPrefixed(HORROR_DUNGEONS)
  {
  }

  /** Every catalogued dungeon's id begins with its category's id and an
      underscore. */
  lemma CatalogueIdsPrefixed()
    ensures forall k :: 0 <= k < |DUNGEON_SPECS| ==> StartsWith(DUNGEON_SPECS[k].id, DUNGEON_SPECS[k].categoryId + "_")
  {
    MythologyPrefixed();
    AncientPrefixed();
    FantasyPrefixed();
    ElementalPrefixed();
    CosmicPrefixed();
    HorrorPrefixed();
    var s2 := MYTHOLOGY_DUNGEONS + ANCIENT_DUNGEONS;
    PrefixedJoin(MYTHOLOGY_DUNGEONS, ANCIENT_DUNGEONS);
    var s3 := s2 + FANTASY_DUNGEONS;
    PrefixedJoin(s2, FANTASY_DUNGEONS);
    var s4 := s3 + ELEMENTAL_DUNGEONS;
    PrefixedJoin(s3, ELEMENTAL_DUNGEONS);
    var s5 := s4 + COSMIC_DUNGEONS;
    PrefixedJoin(s4, COSMIC_DUNGEONS);
    PrefixedJoin(s5, HORROR_DUNGEONS);
    assert AllPrefixed(DUNGEON_SPECS);
  }

  lemma CatalogueSize()
    ensures |CATEGORY_SPECS| == 6 && |DUNGEON_SPECS| == 30
  {
  }

  /** Every catalogued dungeon has a tier from 1 to 5, a non-empty party
      size range and an existing category, and no two share an id. */
  lemma CatalogueWellFormed()
    ensures DistinctDungeonIds(DUNGEON_SPECS)
    ensures forall k :: 0 <= k < |DUNGEON_SPECS| ==> WellFormedSpec(DUNGEON_SPECS[k])
  {
    MythologyIds();
    MythologyWellFormed();
    AncientIds();
    AncientWellFormed();
    FantasyIds();
    FantasyWellFormed();
    ElementalIds();
    ElementalWellFormed();
    CosmicIds();
    CosmicWellFormed();
    HorrorIds();
    HorrorWellFormed();
    var s1 := MYTHOLOGY_DUNGEONS;
    var s2 := s1 + ANCIENT_DUNGEONS;
    JoinBlocks(s1, ANCIENT_DUNGEONS, {'m'}, {'a'});
    var s3 := s2 + FANTASY_DUNGEONS;
    JoinBlocks(s2, FANTASY_DUNGEONS, {'m', 'a'}, {'f'});
    var s4 := s3 + ELEMENTAL_DUNGEONS;
    JoinBlocks(s3, ELEMENTAL_DUNGEONS, {'m', 'a', 'f'}, {'e'});
    var s5 := s4 + COSMIC_DUNGEONS;
    JoinBlocks(s4, COSMIC_DUNGEONS, {'m', 'a', 'f', 'e'}, {'c'});
    JoinBlocks(s5, HORROR_DUNGEONS, {'m', 'a', 'f', 'e', 'c'}, {'h'});
  }

  lemma CategoryIdsDistinct()
    ensures DistinctCategoryIds(CATEGORY_SPECS)
  {
  }

  /** Only "mythology_odyssey" is built with a key. */
  lemma OnlyOdysseyKeyed()
    ensures forall i :: 0 <= i < |DUNGEON_SPECS| ==>
      (DUNGEON_SPECS[i].key.Some? <==> DUNGEON_SPECS[i].id == "mythology_odyssey")
  {
  }
}
